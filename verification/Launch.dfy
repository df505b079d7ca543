/** The launch protocol: external starts and finish callbacks over the three flags. */
module Launch {
  import opened Common
  import opened CoordinatorGraph
  import opened Coordinators

  datatype Flow = Auth | Onboarding | NotificationsInfo | Main

  datatype Flags = Flags(onboardingWasShown: bool, isAuthorized: bool, notificationsAllowed: bool)

  /** `LaunchInstructor.configure`. */
  function Configure(f: Flags): Flow {
    match (f.onboardingWasShown, f.isAuthorized, f.notificationsAllowed)
    case (_, false, _) => Auth
    case (false, true, _) => Onboarding
    case (true, true, false) => NotificationsInfo
    case (true, true, true) => Main
  }

  /** The flag a flow's finish callback sets first. */
  function Raised(f: Flags, flow: Flow): Flags {
    match flow
    case Auth => f.(isAuthorized := true)
    case Onboarding => f.(onboardingWasShown := true)
    case NotificationsInfo => f.(notificationsAllowed := true)
    case Main => f
  }

  /** The flags, the live children in order, and the flow each coordinator ever made runs. */
  datatype State<C> = State(flags: Flags, children: seq<C>, flowOf: map<C, Flow>)

  const NOTHING_DONE := Flags(false, false, false)

  function Initial<C>(): State<C> {
    State(NOTHING_DONE, [], map[])
  }

  /** `start`: the flow the flags ask for gets a new coordinator at the end of the children. */
  function Started<C(==)>(s: State<C>, made: C): State<C> {
    State(s.flags, s.children + [made], s.flowOf[made := Configure(s.flags)])
  }

  /** A finish callback: raise the flag, start again, drop the finished child. */
  function Fired<C(==)>(s: State<C>, child: C, made: C): State<C>
    requires child in s.flowOf
  {
    var t := Started(s.(flags := Raised(s.flags, s.flowOf[child])), made);
    t.(children := RemoveFirst(t.children, child))
  }

  /** Only a live child of a flow with a finish callback can fire. */
  predicate CanFire<C(==)>(s: State<C>, child: C) {
    child in s.children && child in s.flowOf && s.flowOf[child] != Main
  }

  datatype Event<C> = Start(made: C) | Finish(child: C, made: C)

  function Step<C(==)>(s: State<C>, e: Event<C>): State<C> {
    match e
    case Start(made) => Started(s, made)
    case Finish(child, made) => if CanFire(s, child) then Fired(s, child, made) else s
  }

  /** Every event makes a coordinator never seen before. */
  ghost predicate ValidRun<C>(s: State<C>, events: seq<Event<C>>)
    decreases |events|
  {
    events == [] || (events[0].made !in s.flowOf && ValidRun(Step(s, events[0]), events[1..]))
  }

  function Final<C(==)>(s: State<C>, events: seq<Event<C>>): State<C>
    decreases |events|
  {
    if events == [] then s else Final(Step(s, events[0]), events[1..])
  }

  function StartCount<C>(events: seq<Event<C>>): nat {
    if events == [] then 0 else (if events[0].Start? then 1 else 0) + StartCount(events[1..])
  }

  /** How many of the events are callbacks that really fire. */
  function FinishCount<C(==)>(s: State<C>, events: seq<Event<C>>): nat
    decreases |events|
  {
    if events == [] then 0
    else
      (if events[0].Finish? && CanFire(s, events[0].child) then 1 else 0)
      + FinishCount(Step(s, events[0]), events[1..])
  }

  // ---------- what every reachable state satisfies ----------

  /** The flags under which a flow may be running. */
  predicate Permitted(flow: Flow, f: Flags) {
    match flow
    case Auth => true
    case Onboarding => f.isAuthorized
    case NotificationsInfo => f.isAuthorized && f.onboardingWasShown
    case Main => f.isAuthorized && f.onboardingWasShown && f.notificationsAllowed
  }

  predicate Ordered(f: Flags) {
    (f.notificationsAllowed ==> f.onboardingWasShown) && (f.onboardingWasShown ==> f.isAuthorized)
  }

  /** No flag of `f` is lost in `g`. */
  predicate NoneLost(f: Flags, g: Flags) {
    && (f.onboardingWasShown ==> g.onboardingWasShown)
    && (f.isAuthorized ==> g.isAuthorized)
    && (f.notificationsAllowed ==> g.notificationsAllowed)
  }

  ghost predicate Inv<C>(s: State<C>) {
    && Ordered(s.flags)
    && NoDup(s.children)
    && forall c :: c in s.children ==> c in s.flowOf && Permitted(s.flowOf[c], s.flags)
  }

  function Rank(flow: Flow): nat {
    match flow
    case Auth => 3
    case Onboarding => 2
    case NotificationsInfo => 1
    case Main => 0
  }

  /** How many callbacks the live children can still fire between them. */
  function Remaining<C(==)>(cs: seq<C>, flowOf: map<C, Flow>): nat
    requires forall c :: c in cs ==> c in flowOf
  {
    if cs == [] then 0 else Rank(flowOf[cs[0]]) + Remaining(cs[1..], flowOf)
  }

  lemma {:induction false} RemainingAppend<C>(cs: seq<C>, c: C, m: map<C, Flow>)
    requires c in m && forall x :: x in cs ==> x in m
    ensures Remaining(cs + [c], m) == Remaining(cs, m) + Rank(m[c])
  {
    if cs != [] {
      assert (cs + [c])[1..] == cs[1..] + [c];
      RemainingAppend(cs[1..], c, m);
    }
  }

  lemma {:induction false} RemainingRemove<C>(cs: seq<C>, c: C, m: map<C, Flow>)
    requires c in cs && forall x :: x in cs ==> x in m
    ensures forall x :: x in RemoveFirst(cs, c) ==> x in cs
    ensures Remaining(RemoveFirst(cs, c), m) == Remaining(cs, m) - Rank(m[c])
    ensures |RemoveFirst(cs, c)| == |cs| - 1
  {
    if cs[0] != c {
      RemainingRemove(cs[1..], c, m);
      var r := RemoveFirst(cs, c);
      assert r[1..] == RemoveFirst(cs[1..], c);
    }
  }

  lemma {:induction false} RemainingAgree<C>(cs: seq<C>, m: map<C, Flow>, n: map<C, Flow>)
    requires forall x :: x in cs ==> x in m && x in n && m[x] == n[x]
    ensures Remaining(cs, m) == Remaining(cs, n)
  {
    if cs != [] {
      RemainingAgree(cs[1..], m, n);
    }
  }

  lemma {:induction false} StartedKeeps<C>(s: State<C>, made: C)
    requires Inv(s) && made !in s.flowOf
    ensures Inv(Started(s, made)) && |Started(s, made).children| == |s.children| + 1
    ensures Remaining(Started(s, made).children, Started(s, made).flowOf)
      == Remaining(s.children, s.flowOf) + Rank(Configure(s.flags))
  {
    var t := Started(s, made);
    RemainingAppend(s.children, made, t.flowOf);
    RemainingAgree(s.children, s.flowOf, t.flowOf);
  }

  /** A callback that fires swaps its child for one of strictly smaller rank, so the
      callbacks still to come drop by at least one while the children stay as many. */
  lemma {:induction false} FiredKeeps<C>(s: State<C>, child: C, made: C)
    requires Inv(s) && made !in s.flowOf && CanFire(s, child)
    ensures Inv(Fired(s, child, made)) && NoneLost(s.flags, Fired(s, child, made).flags)
    ensures |Fired(s, child, made).children| == |s.children|
    ensures child !in Fired(s, child, made).children && made in Fired(s, child, made).children
    ensures Rank(Fired(s, child, made).flowOf[made]) < Rank(s.flowOf[child])
    ensures Remaining(Fired(s, child, made).children, Fired(s, child, made).flowOf)
      < Remaining(s.children, s.flowOf)
  {
    var u := s.(flags := Raised(s.flags, s.flowOf[child]));
    StartedKeeps(u, made);
    var t := Started(u, made);
    assert t.children[|s.children|] == made;
    RemainingRemove(t.children, child, t.flowOf);
    NoDupRemoveFirst(t.children, child);
    KeepsOthers(t.children, child, made);
  }

  lemma {:induction false} KeepsOthers<C>(cs: seq<C>, c: C, d: C)
    requires d in cs && d != c
    ensures d in RemoveFirst(cs, c)
  {
    if cs[0] != c && cs[0] != d {
      KeepsOthers(cs[1..], c, d);
      assert RemoveFirst(cs, c)[1..] == RemoveFirst(cs[1..], c);
    }
  }

  lemma {:induction false} StepKeeps<C>(s: State<C>, e: Event<C>)
    requires Inv(s) && e.made !in s.flowOf
    ensures Inv(Step(s, e)) && NoneLost(s.flags, Step(s, e).flags)
    ensures |Step(s, e).children| == |s.children| + if e.Start? then 1 else 0
    ensures Remaining(Step(s, e).children, Step(s, e).flowOf)
      + (if e.Finish? && CanFire(s, e.child) then 1 else 0)
      <= Remaining(s.children, s.flowOf) + if e.Start? then 3 else 0
  {
    match e
    case Start(made) => StartedKeeps(s, made);
    case Finish(child, made) =>
      if CanFire(s, child) {
        FiredKeeps(s, child, made);
      }
  }

  /** Over any run: the invariant holds, no flag is lost, each start adds one child,
      and callbacks are paid for out of three per start. */
  lemma {:induction false} RunKeeps<C>(s: State<C>, events: seq<Event<C>>)
    requires Inv(s) && ValidRun(s, events)
    ensures Inv(Final(s, events)) && NoneLost(s.flags, Final(s, events).flags)
    ensures |Final(s, events).children| == |s.children| + StartCount(events)
    ensures FinishCount(s, events) + Remaining(Final(s, events).children, Final(s, events).flowOf)
      <= Remaining(s.children, s.flowOf) + 3 * StartCount(events)
    decreases |events|
  {
    if events != [] {
      StepKeeps(s, events[0]);
      RunKeeps(Step(s, events[0]), events[1..]);
    }
  }

  /** From launch: `n` starts allow at most `3n` finishes, give exactly `n` distinct
      children, and the flags are raised in order. */
  lemma {:induction false} LaunchRuns<C>(events: seq<Event<C>>)
    requires ValidRun(Initial(), events)
    ensures var s := Final(Initial(), events);
      && Ordered(s.flags) && NoDup(s.children) && |s.children| == StartCount(events)
      && (forall c :: c in s.children ==> c in s.flowOf && Permitted(s.flowOf[c], s.flags))
    ensures FinishCount(Initial(), events) <= 3 * StartCount(events)
  {
    RunKeeps(Initial(), events);
  }

  // ---------- a single start ----------

  /** The state of a lone child after `k` finishes. */
  ghost predicate Lone<C>(s: State<C>, k: nat) {
    && k <= 3
    && s.flags == Flags(k >= 2, k >= 1, k >= 3)
    && |s.children| == 1 && s.children[0] in s.flowOf
    && s.flowOf[s.children[0]] == [Auth, Onboarding, NotificationsInfo, Main][k]
  }

  lemma {:induction false} LoneRun<C>(s: State<C>, events: seq<Event<C>>, k: nat)
    requires Lone(s, k) && ValidRun(s, events) && StartCount(events) == 0
    ensures Lone(Final(s, events), k + FinishCount(s, events))
    decreases |events|
  {
    if events != [] {
      var e := events[0];
      if CanFire(s, e.child) {
        var c := s.children[0];
        assert e.child == c;
        var t := Started(s.(flags := Raised(s.flags, s.flowOf[c])), e.made);
        assert t.children == [c, e.made];
        assert RemoveFirst(t.children, c) == [e.made];
        LoneRun(Step(s, e), events[1..], k + 1);
      } else {
        LoneRun(s, events[1..], k);
      }
    }
  }

  /** With exactly one start anywhere in a run the only child after `k` finishes is the
      `k`-th of auth, onboarding, notifications, main; so main is reached only through
      the others. */
  lemma {:induction false} SingleStart<C>(events: seq<Event<C>>)
    requires ValidRun(Initial(), events) && StartCount(events) == 1
    ensures Lone(Final(Initial(), events), FinishCount(Initial(), events))
    decreases |events|
  {
    if events[0].Start? {
      LoneRun(Started(Initial(), events[0].made), events[1..], 0);
    } else {
      SingleStart(events[1..]);
    }
  }

  // ---------- the object ----------

  class ApplicationCoordinator {
    /** The `BaseCoordinator` part, which owns the child list. */
    const node: Coordinator
    /** The three file-level flags. */
    var flags: Flags
    /** Which flow each coordinator made so far runs; its finish callback follows from it. */
    var flowOf: map<Coordinator, Flow>

    ghost predicate Valid(all: set<Coordinator>)
      reads this, node, all
    {
      && node in all && node.isBase && WellFormed(all) && flowOf.Keys <= all && node !in flowOf
      && forall c :: c in node.childCoordinators ==>
        c in flowOf && c.isBase && (flowOf[c] != Main ==> c.childCoordinators == [])
    }

    ghost function View(): State<Coordinator>
      reads this, node
    {
      State(flags, node.childCoordinators, flowOf)
    }

    constructor ()
      ensures fresh(node) && Valid({node}) && View() == Initial<Coordinator>()
    {
      node := new Coordinator(true);
      flags := NOTHING_DONE;
      flowOf := map[];
    }

    /** An external start, or the restart inside a callback. */
    method Start(ghost all: set<Coordinator>) returns (made: Coordinator)
      requires Valid(all)
      modifies this, node
      ensures fresh(made) && made !in old(flowOf) && Valid(all + {made})
      ensures View() == Started(old(View()), made)
      ensures made.childCoordinators == []
      ensures forall n :: n in all && n != node ==> n.childCoordinators == old(n.childCoordinators)
    {
      ghost var g := Snapshot(all);
      made := new Coordinator(true);
      ghost var grown: Graph<Coordinator> := g[made := []];
      assert Snapshot(all + {made}) == grown;
      flowOf := flowOf[made := Configure(flags)];
      node.AddDependency(made, all + {made});
      ghost var h := Snapshot(all + {made});
      assert h == Added<Coordinator>(grown, node, made);
      forall n | n in all + {made} ensures n.childCoordinators == h[n] {
      }
    }

    /** The finish callback of a live auth, onboarding or notifications child. */
    method FinishFlow(child: Coordinator, ghost all: set<Coordinator>) returns (made: Coordinator)
      requires Valid(all) && CanFire(View(), child)
      modifies this, all
      ensures fresh(made) && Valid(all + {made})
      ensures View() == Fired(old(View()), child, made)
      ensures forall n :: n in all && n != node ==> n.childCoordinators == old(n.childCoordinators)
    {
      flags := Raised(flags, flowOf[child]);
      made := Start(all);
      DropFinished(child, all + {made});
    }

    /** `removeDependency` of a finished flow, which never adopted a child. */
    method DropFinished(child: Coordinator, ghost all: set<Coordinator>)
      requires Valid(all) && child in all && child != node && child.childCoordinators == []
      modifies all
      ensures Valid(all)
      ensures node.childCoordinators == RemoveFirst(old(node.childCoordinators), child)
      ensures forall n :: n in all && n != node ==> n.childCoordinators == old(n.childCoordinators)
    {
      ghost var g := Snapshot(all);
      assert g[child] == child.childCoordinators;
      assert HeightBelow<Coordinator>(g, child, 1);
      DropLeaf(g, node, child);
      node.RemoveDependency(child, all, 1);
      ghost var h := Snapshot(all);
      forall n | n in all ensures n.childCoordinators == h[n] {
      }
      RemoveFirstMembers(g[node], child);
    }
  }

  lemma {:induction false} RemoveFirstMembers<C>(s: seq<C>, x: C)
    ensures forall y :: y in RemoveFirst(s, x) ==> y in s
  {
    if s != [] {
      RemoveFirstMembers(s[1..], x);
    }
  }

  /** Removing a child that has no children itself only takes its entry away. */
  lemma {:induction false} DropLeaf(g: Graph<Coordinator>, p: Coordinator, c: Coordinator)
    requires p in g && c in g && g[c] == []
    ensures After<Coordinator>(g, p, c) == g[p := RemoveFirst<Coordinator>(g[p], c)]
  {
  }
}
