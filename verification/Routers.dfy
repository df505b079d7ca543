/** The router: a navigation stack and the completions to run when controllers leave
    it. */
module Routers {
  import opened Common

  /** Controllers and completions by identity. */
  type Controller = nat
  type Completion = nat

  /** The stack (none once the navigation controller is gone), the completions that
      wait, and those that have run. */
  datatype State = State(stack: Option<seq<Controller>>, completions: map<Controller, Completion>, log: seq<Completion>)

  datatype Call =
    | Push(controller: Controller, completion: Option<Completion>)
    | Pop
    | PopToRoot
    | SetRoot(controller: Controller)
    | Release

  /** `runCompletion(for:)`. */
  function Ran(s: State, c: Controller): State {
    if c in s.completions then State(s.stack, s.completions - {c}, s.log + [s.completions[c]]) else s
  }

  function RanAll(s: State, cs: seq<Controller>): State
    decreases |cs|
  {
    if cs == [] then s else RanAll(Ran(s, cs[0]), cs[1..])
  }

  /** The controllers a call takes off the stack; the root is never popped. */
  function Popped(s: State, call: Call): seq<Controller> {
    if s.stack.None? || |s.stack.value| < 2 then []
    else
      match call
      case Pop => [s.stack.value[|s.stack.value| - 1]]
      case PopToRoot => s.stack.value[1..]
      case _ => []
  }

  function Step(s: State, call: Call): State {
    match call
    case Push(c, completion) =>
      State(if s.stack.Some? then Some(s.stack.value + [c]) else None,
            if completion.Some? then s.completions[c := completion.value] else s.completions, s.log)
    case Pop =>
      if Popped(s, call) == [] then s
      else Ran(s.(stack := Some(s.stack.value[..|s.stack.value| - 1])), s.stack.value[|s.stack.value| - 1])
    case PopToRoot =>
      if Popped(s, call) == [] then s
      else RanAll(s.(stack := Some(s.stack.value[..1])), s.stack.value[1..])
    case SetRoot(c) => if s.stack.Some? then s.(stack := Some([c])) else s
    case Release => s.(stack := None)
  }

  // ---------- what runs ----------

  /** The completions waiting for the controllers, in their order. */
  function Waiting(completions: map<Controller, Completion>, cs: seq<Controller>): seq<Completion> {
    if cs == [] then []
    else (if cs[0] in completions then [completions[cs[0]]] else []) + Waiting(completions, cs[1..])
  }

  lemma {:induction false} RanAllRuns(s: State, cs: seq<Controller>)
    requires NoDup(cs)
    ensures RanAll(s, cs) == State(s.stack, s.completions - Those(cs), s.log + Waiting(s.completions, cs))
    decreases |cs|
  {
    hide NoDup, Those;
    NoneLess(s.completions, cs);
    if cs == [] {
      assert s.log + [] == s.log;
    } else {
      var next := Ran(s, cs[0]);
      TailDistinct(cs);
      RanAllRuns(next, cs[1..]);
      WaitingSame(s.completions, next.completions, cs[1..]);
      assert s.log + Waiting(s.completions, cs) == next.log + Waiting(s.completions, cs[1..]);
    }
  }

  function Those(cs: seq<Controller>): set<Controller> {
    set c | c in cs
  }

  lemma {:induction false} NoneLess(m: map<Controller, Completion>, cs: seq<Controller>)
    ensures cs == [] ==> m - Those(cs) == m
    ensures cs != [] ==> m - {cs[0]} - Those(cs[1..]) == m - Those(cs)
    ensures cs != [] && cs[0] !in m ==> m - Those(cs[1..]) == m - Those(cs)
  {
  }

  lemma {:induction false} TailDistinct(cs: seq<Controller>)
    requires cs != [] && NoDup(cs)
    ensures NoDup(cs[1..]) && cs[0] !in cs[1..]
  {
  }

  lemma {:induction false} WaitingSame(a: map<Controller, Completion>, b: map<Controller, Completion>, cs: seq<Controller>)
    requires forall c :: c in cs ==> (c in a <==> c in b) && (c in a ==> a[c] == b[c])
    ensures Waiting(a, cs) == Waiting(b, cs)
  {
    if cs != [] {
      assert forall c :: c in cs[1..] ==> c in cs;
      WaitingSame(a, b, cs[1..]);
    }
  }

  /** A pop runs exactly the waiting completions of the controllers it takes off the
      stack, and nothing else runs any. */
  lemma {:induction false} StepRuns(s: State, call: Call)
    requires s.stack.Some? ==> NoDup(s.stack.value)
    ensures Step(s, call).log == s.log + Waiting(s.completions, Popped(s, call))
    ensures !call.Push? ==> Step(s, call).completions == s.completions - Those(Popped(s, call))
  {
    var cs := Popped(s, call);
    assert NoDup(cs);
    RanAllRuns(s, cs);
    if call.Pop? && cs != [] {
      assert cs[1..] == [];
      assert RanAll(Ran(s, cs[0]), cs[1..]) == Ran(s, cs[0]);
    } else if call.PopToRoot? && cs != [] {
      RanAllRuns(s.(stack := Some(s.stack.value[..1])), cs);
    }
  }

  // ---------- conservation ----------

  /** Of the completions ever registered, each has run once or waits, never both. */
  ghost predicate Conserved(s: State, registered: set<Completion>) {
    && (s.stack.Some? ==> NoDup(s.stack.value))
    && NoDup(s.log)
    && (forall c, d :: c in s.completions && d in s.completions && c != d ==> s.completions[c] != s.completions[d])
    && (forall c :: c in s.completions ==> s.completions[c] !in s.log)
    && registered == (set k | k in s.log) + s.completions.Values
  }

  /** Each push has a controller and a completion of its own. */
  ghost predicate FreshPush(s: State, registered: set<Completion>, call: Call) {
    match call
    case Push(c, completion) =>
      && c !in s.completions && (s.stack.Some? ==> c !in s.stack.value)
      && (completion.Some? ==> completion.value !in registered)
    case _ => true
  }

  function Registered(registered: set<Completion>, call: Call): set<Completion> {
    if call.Push? && call.completion.Some? then registered + {call.completion.value} else registered
  }

  lemma {:induction false} PushConserves(s: State, registered: set<Completion>, c: Controller, completion: Option<Completion>)
    requires Conserved(s, registered) && FreshPush(s, registered, Push(c, completion))
    ensures Conserved(Step(s, Push(c, completion)), Registered(registered, Push(c, completion)))
  {
    if completion.Some? {
      var now := s.completions[c := completion.value];
      assert now.Values == s.completions.Values + {completion.value} by {
        assert now[c] == completion.value;
        forall k | k in s.completions.Values ensures k in now.Values {
          var d :| d in s.completions && s.completions[d] == k;
          assert now[d] == k;
        }
      }
      forall d | d in s.completions ensures s.completions[d] in registered {
      }
    }
  }

  lemma {:induction false} RanConserves(s: State, registered: set<Completion>, c: Controller)
    requires Conserved(s, registered)
    ensures Conserved(Ran(s, c), registered)
  {
    if c in s.completions {
      var now, k := s.completions - {c}, s.completions[c];
      assert s.completions.Values == now.Values + {k} by {
        forall x | x in s.completions.Values ensures x in now.Values + {k} {
          var d :| d in s.completions && s.completions[d] == x;
          if d != c {
            assert now[d] == x;
          }
        }
      }
      assert (set x | x in s.log + [k]) == (set x | x in s.log) + {k};
    }
  }

  lemma {:induction false} RanAllConserves(s: State, registered: set<Completion>, cs: seq<Controller>)
    requires Conserved(s, registered)
    ensures Conserved(RanAll(s, cs), registered)
    decreases |cs|
  {
    if cs != [] {
      RanConserves(s, registered, cs[0]);
      RanAllConserves(Ran(s, cs[0]), registered, cs[1..]);
    }
  }

  lemma {:induction false} StepConserves(s: State, registered: set<Completion>, call: Call)
    requires Conserved(s, registered) && FreshPush(s, registered, call)
    ensures Conserved(Step(s, call), Registered(registered, call))
  {
    match call
    case Push(c, completion) => PushConserves(s, registered, c, completion);
    case Pop =>
      if Popped(s, call) != [] {
        RanConserves(s.(stack := Some(s.stack.value[..|s.stack.value| - 1])), registered, s.stack.value[|s.stack.value| - 1]);
      }
    case PopToRoot =>
      if Popped(s, call) != [] {
        RanAllConserves(s.(stack := Some(s.stack.value[..1])), registered, s.stack.value[1..]);
      }
    case SetRoot(_) =>
    case Release =>
  }

  ghost predicate FreshRun(s: State, registered: set<Completion>, calls: seq<Call>)
    decreases |calls|
  {
    calls != [] ==>
      FreshPush(s, registered, calls[0]) && FreshRun(Step(s, calls[0]), Registered(registered, calls[0]), calls[1..])
  }

  function Run(s: State, calls: seq<Call>): State
    decreases |calls|
  {
    if calls == [] then s else Run(Step(s, calls[0]), calls[1..])
  }

  function AllRegistered(registered: set<Completion>, calls: seq<Call>): set<Completion>
    decreases |calls|
  {
    if calls == [] then registered else AllRegistered(Registered(registered, calls[0]), calls[1..])
  }

  /** Over any run with a fresh controller for each push, every registered completion
      runs at most once, and until it has run it waits. */
  lemma {:induction false} RunConserves(s: State, registered: set<Completion>, calls: seq<Call>)
    requires Conserved(s, registered) && FreshRun(s, registered, calls)
    ensures Conserved(Run(s, calls), AllRegistered(registered, calls))
    decreases |calls|
  {
    if calls != [] {
      StepConserves(s, registered, calls[0]);
      RunConserves(Step(s, calls[0]), Registered(registered, calls[0]), calls[1..]);
    }
  }

  // ---------- what still waits ----------

  /** The controllers that have been on the stack ever since they were pushed with a
      completion, and that completion. The completions the router keeps play no part. */
  function Standing(s: State, pushed: map<Controller, Completion>, call: Call): map<Controller, Completion> {
    match call
    case Push(c, completion) =>
      if s.stack.None? then pushed else if completion.Some? then pushed[c := completion.value] else pushed - {c}
    case SetRoot(c) => if s.stack.None? then pushed else map d | d in pushed && d == c :: pushed[d]
    case Release => map[]
    case _ => pushed - Those(Popped(s, call))
  }

  function AllStanding(s: State, pushed: map<Controller, Completion>, calls: seq<Call>): map<Controller, Completion>
    decreases |calls|
  {
    if calls == [] then pushed else AllStanding(Step(s, calls[0]), Standing(s, pushed, calls[0]), calls[1..])
  }

  /** Each of them is on the stack, and its own completion waits. */
  ghost predicate Pending(s: State, pushed: map<Controller, Completion>) {
    forall c :: c in pushed ==>
      s.stack.Some? && c in s.stack.value && c in s.completions && s.completions[c] == pushed[c]
  }

  lemma {:induction false} StepPending(s: State, pushed: map<Controller, Completion>, call: Call)
    requires (s.stack.Some? ==> NoDup(s.stack.value)) && Pending(s, pushed)
    requires call.Push? ==> call.controller !in s.completions && (s.stack.Some? ==> call.controller !in s.stack.value)
    ensures Pending(Step(s, call), Standing(s, pushed, call))
  {
    hide NoDup;
    StepRuns(s, call);
    var cs := Popped(s, call);
    match call
    case Pop =>
      if cs != [] {
        StackSplit(s.stack.value, |s.stack.value| - 1);
      }
    case PopToRoot =>
      if cs != [] {
        StackSplit(s.stack.value, 1);
        TailDistinct(s.stack.value);
        RanAllRuns(s.(stack := Some(s.stack.value[..1])), cs);
      }
    case _ =>
  }

  /** Over any run with a fresh controller for each push, every controller still on the
      stack since it was pushed with a completion has that completion waiting. */
  lemma {:induction false} RunPending(s: State, registered: set<Completion>, pushed: map<Controller, Completion>, calls: seq<Call>)
    requires Conserved(s, registered) && FreshRun(s, registered, calls) && Pending(s, pushed)
    ensures Pending(Run(s, calls), AllStanding(s, pushed, calls))
    decreases |calls|
  {
    hide Conserved, Pending;
    if calls != [] {
      StackDistinct(s, registered);
      StepConserves(s, registered, calls[0]);
      StepPending(s, pushed, calls[0]);
      RunPending(Step(s, calls[0]), Registered(registered, calls[0]), Standing(s, pushed, calls[0]), calls[1..]);
    }
  }

  // ---------- orphans ----------

  /** Every waiting completion belongs to a controller that can still be popped. */
  ghost predicate NoOrphans(s: State) {
    s.stack.Some? && forall c :: c in s.completions ==> c in s.stack.value
  }

  /** Pushes and pops strand no completion; replacing the root strands every waiting
      one but the new root's own, and losing the navigation controller all of them. */
  lemma {:induction false} StepOrphansIff(s: State, call: Call)
    requires NoOrphans(s) && NoDup(s.stack.value)
    ensures NoOrphans(Step(s, call)) <==>
      match call
      case SetRoot(root) => s.completions.Keys <= {root}
      case Release => false
      case _ => true
  {
    StepRuns(s, call);
    var cs := Popped(s, call);
    match call
    case Push(_, _) =>
    case Pop =>
      if cs != [] {
        StackSplit(s.stack.value, |s.stack.value| - 1);
      }
    case PopToRoot =>
      if cs != [] {
        StackSplit(s.stack.value, 1);
        RanAllRuns(s.(stack := Some(s.stack.value[..1])), cs);
      }
    case SetRoot(_) =>
    case Release =>
  }

  lemma {:induction false} StackSplit(stack: seq<Controller>, k: nat)
    requires k <= |stack|
    ensures forall c :: c in stack ==> c in stack[..k] || c in stack[k..]
    ensures |stack| > 0 && k == |stack| - 1 ==> stack[k..] == [stack[k]]
  {
  }

  /** A stranded completion never runs, unless its controller comes back as the root. */
  lemma {:induction false} OrphanWaits(s: State, registered: set<Completion>, c: Controller, calls: seq<Call>)
    requires c in s.completions && (s.stack.Some? ==> c !in s.stack.value)
    requires Conserved(s, registered) && FreshRun(s, registered, calls)
    requires forall i :: 0 <= i < |calls| ==> calls[i] != SetRoot(c)
    ensures c in Run(s, calls).completions && Run(s, calls).completions[c] == s.completions[c]
    decreases |calls|
  {
    hide Conserved;
    if calls != [] {
      StackDistinct(s, registered);
      StepRuns(s, calls[0]);
      StepConserves(s, registered, calls[0]);
      assert calls[0] != SetRoot(c);
      var next := Step(s, calls[0]);
      if calls[0].PopToRoot? && Popped(s, calls[0]) != [] {
        RanAllRuns(s.(stack := Some(s.stack.value[..1])), s.stack.value[1..]);
      }
      OrphanWaits(next, Registered(registered, calls[0]), c, calls[1..]);
    }
  }

  lemma {:induction false} StackDistinct(s: State, registered: set<Completion>)
    requires Conserved(s, registered)
    ensures s.stack.Some? ==> NoDup(s.stack.value)
  {
  }

  // ---------- last pushed, first popped ----------

  datatype Entry = Entry(controller: Controller, completion: Option<Completion>)

  function Controllers(ps: seq<Entry>): (r: seq<Controller>)
    ensures |r| == |ps| && forall i :: 0 <= i < |ps| ==> r[i] == ps[i].controller
  {
    seq(|ps|, i requires 0 <= i < |ps| => ps[i].controller)
  }

  function Pushes(ps: seq<Entry>): seq<Call> {
    seq(|ps|, i requires 0 <= i < |ps| => Push(ps[i].controller, ps[i].completion))
  }

  function Pops(n: nat): seq<Call> {
    seq(n, _ => Pop)
  }

  function Own(e: Entry): seq<Completion> {
    if e.completion.Some? then [e.completion.value] else []
  }

  /** The completions given with the pushes, in their order and the other way round. */
  function Given(ps: seq<Entry>): seq<Completion> {
    if ps == [] then [] else Own(ps[0]) + Given(ps[1..])
  }

  function GivenBack(ps: seq<Entry>): seq<Completion> {
    if ps == [] then [] else GivenBack(ps[1..]) + Own(ps[0])
  }

  /** There is a root, and the controllers are new to the router and to each other. */
  ghost predicate NewTo(s: State, ps: seq<Entry>) {
    && s.stack.Some? && s.stack.value != [] && NoDup(s.stack.value + Controllers(ps))
    && forall i :: 0 <= i < |ps| ==> ps[i].controller !in s.completions
  }

  lemma {:induction false} RunAppend(s: State, a: seq<Call>, b: seq<Call>)
    ensures Run(s, a + b) == Run(Run(s, a), b)
    decreases |a|
  {
    if a == [] {
      assert a + b == b;
    } else {
      assert (a + b)[1..] == a[1..] + b;
      RunAppend(Step(s, a[0]), a[1..], b);
    }
  }

  lemma {:induction false} PushedNext(s: State, ps: seq<Entry>)
    requires NewTo(s, ps) && ps != []
    ensures NewTo(Step(s, Push(ps[0].controller, ps[0].completion)), ps[1..])
  {
    var next := Step(s, Push(ps[0].controller, ps[0].completion));
    assert next.stack.value + Controllers(ps[1..]) == s.stack.value + Controllers(ps);
    forall i | 0 <= i < |ps[1..]| ensures ps[1..][i].controller !in next.completions {
      var all, n := s.stack.value + Controllers(ps), |s.stack.value|;
      assert all[n] == ps[0].controller && all[n + 1 + i] == ps[1..][i].controller;
    }
  }

  /** A pop takes off the controller pushed last and runs the completion given with it. */
  lemma {:induction false} PushPop(s: State, e: Entry)
    requires s.stack.Some? && s.stack.value != [] && e.controller !in s.completions
    ensures Step(Step(s, Push(e.controller, e.completion)), Pop) == s.(log := s.log + Own(e))
  {
    var pushed := Step(s, Push(e.controller, e.completion));
    assert pushed.stack.value[..|pushed.stack.value| - 1] == s.stack.value;
    if e.completion.Some? {
      assert pushed.completions - {e.controller} == s.completions;
    } else {
      assert s.log + [] == s.log;
    }
  }

  /** As many pops as pushes bring the stack back as it was, and run the completions
      given with the pushes, the last one first. */
  lemma {:induction false} PopsUndoPushes(s: State, ps: seq<Entry>)
    requires NewTo(s, ps)
    ensures Run(s, Pushes(ps) + Pops(|ps|)) == s.(log := s.log + GivenBack(ps))
    decreases |ps|
  {
    if ps == [] {
      assert Pushes(ps) + Pops(0) == [];
      assert s.log + [] == s.log;
    } else {
      var next, n := Step(s, Push(ps[0].controller, ps[0].completion)), |ps| - 1;
      PushedNext(s, ps);
      PopsUndoPushes(next, ps[1..]);
      assert Pushes(ps) + Pops(|ps|) == [Push(ps[0].controller, ps[0].completion)] + (Pushes(ps[1..]) + Pops(n)) + [Pop];
      RunAppend(s, [Push(ps[0].controller, ps[0].completion)] + (Pushes(ps[1..]) + Pops(n)), [Pop]);
      RunAppend(s, [Push(ps[0].controller, ps[0].completion)], Pushes(ps[1..]) + Pops(n));
      RunOne(s, Push(ps[0].controller, ps[0].completion));
      var back := next.(log := next.log + GivenBack(ps[1..]));
      RunOne(back, Pop);
      var early := s.(log := s.log + GivenBack(ps[1..]));
      assert back == Step(early, Push(ps[0].controller, ps[0].completion));
      PushPop(early, ps[0]);
      assert early.log + Own(ps[0]) == s.log + GivenBack(ps);
    }
  }

  lemma {:induction false} RunOne(s: State, call: Call)
    ensures Run(s, [call]) == Step(s, call)
  {
    assert Run(Step(s, call), [call][1..]) == Step(s, call);
  }

  lemma {:induction false} AllPushed(s: State, ps: seq<Entry>)
    requires NewTo(s, ps)
    ensures var r := Run(s, Pushes(ps));
      && r.stack == Some(s.stack.value + Controllers(ps)) && r.log == s.log
      && Waiting(r.completions, Controllers(ps)) == Given(ps)
      && r.completions - Those(Controllers(ps)) == s.completions
    ensures forall c :: c !in Controllers(ps) ==>
      (c in Run(s, Pushes(ps)).completions <==> c in s.completions)
      && (c in s.completions ==> Run(s, Pushes(ps)).completions[c] == s.completions[c])
    decreases |ps|
  {
    if ps == [] {
      assert s.stack.value + Controllers(ps) == s.stack.value;
    } else {
      var next := Step(s, Push(ps[0].controller, ps[0].completion));
      PushedNext(s, ps);
      AllPushed(next, ps[1..]);
      assert Pushes(ps)[1..] == Pushes(ps[1..]);
      assert Controllers(ps)[1..] == Controllers(ps[1..]);
      assert next.stack.value + Controllers(ps[1..]) == s.stack.value + Controllers(ps);
      FirstNotLater(s, ps);
      var r := Run(s, Pushes(ps));
      assert Controllers(ps) == [ps[0].controller] + Controllers(ps[1..]);
      assert r.completions - Those(Controllers(ps)) == s.completions;
    }
  }

  lemma {:induction false} FirstNotLater(s: State, ps: seq<Entry>)
    requires NewTo(s, ps) && ps != []
    ensures ps[0].controller !in Controllers(ps[1..]) && ps[0].controller !in s.completions
  {
    var all, n := s.stack.value + Controllers(ps), |s.stack.value|;
    forall i | 0 <= i < |ps| - 1 ensures Controllers(ps[1..])[i] != ps[0].controller {
      assert all[n] == ps[0].controller && all[n + 1 + i] == Controllers(ps[1..])[i];
    }
  }

  /** Popping to a lone root takes off all that was pushed on it, and runs the
      completions given with the pushes, the first one first. */
  lemma {:induction false} PopToRootUndoesPushes(s: State, ps: seq<Entry>)
    requires NewTo(s, ps) && |s.stack.value| == 1
    ensures Run(s, Pushes(ps) + [PopToRoot]) == s.(log := s.log + Given(ps))
  {
    hide Those, Waiting, Given;
    var r, cs := Run(s, Pushes(ps)), Controllers(ps);
    AllPushed(s, ps);
    RunAppend(s, Pushes(ps), [PopToRoot]);
    RunOne(r, PopToRoot);
    assert r.stack.value[..1] == s.stack.value && r.stack.value[1..] == cs;
    NewDistinct(s, ps);
    RanAllRuns(s.(completions := r.completions), cs);
    NothingGiven(s, ps);
  }

  lemma {:induction false} NewDistinct(s: State, ps: seq<Entry>)
    requires NewTo(s, ps)
    ensures NoDup(Controllers(ps))
  {
    var all, n := s.stack.value + Controllers(ps), |s.stack.value|;
    forall i, j | 0 <= i < j < |ps| ensures Controllers(ps)[i] != Controllers(ps)[j] {
      assert all[n + i] == Controllers(ps)[i] && all[n + j] == Controllers(ps)[j];
    }
  }

  lemma {:induction false} NothingGiven(s: State, ps: seq<Entry>)
    ensures ps == [] ==> Given(ps) == [] && s.log + Given(ps) == s.log
  {
  }

  // ---------- the router as it runs ----------

  class Router {
    var stack: Option<seq<Controller>>
    var completions: map<Controller, Completion>
    /** The completions that have run, in order. */
    var log: seq<Completion>

    function Now(): State
      reads this
    {
      State(stack, completions, log)
    }

    constructor (root: Controller)
      ensures Now() == State(Some([root]), map[], [])
    {
      stack, completions, log := Some([root]), map[], [];
    }

    method PushModule(controller: Controller, completion: Option<Completion>)
      modifies this
      ensures Now() == Step(old(Now()), Push(controller, completion))
    {
      if completion.Some? {
        completions := completions[controller := completion.value];
      }
      if stack.Some? {
        stack := Some(stack.value + [controller]);
      }
    }

    method PopModule()
      modifies this
      ensures Now() == Step(old(Now()), Pop)
    {
      if stack.Some? && |stack.value| >= 2 {
        var controller := stack.value[|stack.value| - 1];
        stack := Some(stack.value[..|stack.value| - 1]);
        RunCompletion(controller);
      }
    }

    method PopToRootModule()
      modifies this
      ensures Now() == Step(old(Now()), PopToRoot)
    {
      if stack.Some? && |stack.value| >= 2 {
        var controllers := stack.value[1..];
        stack := Some(stack.value[..1]);
        ghost var start := Now();
        var i := 0;
        while i < |controllers|
          invariant 0 <= i <= |controllers|
          invariant RanAll(Now(), controllers[i..]) == RanAll(start, controllers)
        {
          assert controllers[i..][1..] == controllers[i + 1..];
          RunCompletion(controllers[i]);
          i := i + 1;
        }
      }
    }

    method SetRootModule(controller: Controller)
      modifies this
      ensures Now() == Step(old(Now()), SetRoot(controller))
    {
      if stack.Some? {
        stack := Some([controller]);
      }
    }

    method RunCompletion(controller: Controller)
      modifies this
      ensures Now() == Ran(old(Now()), controller)
    {
      if controller !in completions {
        return;
      }
      log := log + [completions[controller]];
      completions := completions - {controller};
    }
  }
}
