/** Coordinator objects: `addDependency` and the recursive `removeDependency`. */
module Coordinators {
  import opened Common
  import opened CoordinatorGraph

  /** The child graph over the coordinators in `all`. */
  ghost function Snapshot(all: set<Coordinator>): Graph<Coordinator>
    reads all
  {
    map n | n in all :: n.childCoordinators
  }

  /** `all` contains every child of its members; only base coordinators have children. */
  ghost predicate WellFormed(all: set<Coordinator>)
    reads all
  {
    && Closed<Coordinator>(Snapshot(all))
    && forall n :: n in all && !n.isBase ==> n.childCoordinators == []
  }

  class Coordinator {
    /** Whether this conforms through `BaseCoordinator`, the only kind with children. */
    const isBase: bool
    var childCoordinators: seq<Coordinator>

    constructor (isBase: bool)
      ensures this.isBase == isBase && childCoordinators == []
    {
      this.isBase := isBase;
      childCoordinators := [];
    }

    /** Adds only a coordinator that is not there yet, at the end. */
    method AddDependency(coordinator: Coordinator, ghost all: set<Coordinator>)
      requires isBase && WellFormed(all) && this in all && coordinator in all
      modifies this
      ensures WellFormed(all)
      ensures Snapshot(all) == Added<Coordinator>(old(Snapshot(all)), this, coordinator)
    {
      AddedClosed<Coordinator>(Snapshot(all), this, coordinator);
      if coordinator in childCoordinators {
        return;
      }
      childCoordinators := childCoordinators + [coordinator];
      assert Snapshot(all) == Added<Coordinator>(old(Snapshot(all)), this, coordinator);
    }

    /** Tears `coordinator` down recursively, then drops its first entry. The
        height of the graph below it, self-edges aside, bounds the recursion. */
    method RemoveDependency(coordinator: Coordinator?, ghost all: set<Coordinator>, ghost height: nat)
      requires isBase && WellFormed(all) && this in all
      requires coordinator != null ==>
        coordinator in all && HeightBelow<Coordinator>(Snapshot(all), coordinator, height)
      modifies all
      ensures WellFormed(all)
      ensures Snapshot(all) ==
        if coordinator == null then old(Snapshot(all)) else After<Coordinator>(old(Snapshot(all)), this, coordinator)
      decreases height, 1
    {
      if |childCoordinators| == 0 || coordinator == null {
        return;
      }
      var c: Coordinator := coordinator;
      ghost var g0 := Snapshot(all);
      c.ClearChildren(all, height);
      assert g0[this] != [];
      RemoveEntry(c, all);
      assert Snapshot(all) == After<Coordinator>(g0, this, c);
      AfterClosed<Coordinator>(g0, this, c);
      TornDownLeaves(g0, c);
    }

    /** The recursive part: drops every child other than the coordinator itself. */
    method ClearChildren(ghost all: set<Coordinator>, ghost height: nat)
      requires WellFormed(all) && this in all && HeightBelow<Coordinator>(Snapshot(all), this, height)
      modifies all
      ensures WellFormed(all)
      ensures Snapshot(all) == TornDown<Coordinator>(old(Snapshot(all)), this)
      decreases height, 0
    {
      ghost var g0 := Snapshot(all);
      var pending := if isBase then Others<Coordinator>(childCoordinators, this) else [];
      assert pending == Others<Coordinator>(g0[this], this);
      ProgressStart<Coordinator>(g0, this);
      var i := 0;
      while i < |pending|
        invariant i <= |pending|
        invariant WellFormed(all) && Progress<Coordinator>(g0, this, i, Snapshot(all))
      {
        OtherIsChild<Coordinator>(g0[this], this, i);
        NoReturn<Coordinator>(g0, this, pending[i], height);
        ProgressStep<Coordinator>(g0, this, i, Snapshot(all));
        ProgressSubgraph<Coordinator>(g0, this, i, Snapshot(all));
        HeightSubgraph<Coordinator>(Snapshot(all), g0, pending[i], height - 1);
        RemoveDependency(pending[i], all, height - 1);
        i := i + 1;
      }
      ProgressDone<Coordinator>(g0, this, Snapshot(all));
    }

    /** The scan that removes the first identical entry and stops. */
    method RemoveEntry(coordinator: Coordinator, ghost all: set<Coordinator>)
      requires this in all
      modifies this
      ensures Snapshot(all) ==
        old(Snapshot(all))[this := RemoveFirst<Coordinator>(old(childCoordinators), coordinator)]
    {
      var index := 0;
      while index < |childCoordinators|
        invariant index <= |childCoordinators| && childCoordinators == old(childCoordinators)
        invariant coordinator !in childCoordinators[..index]
      {
        if childCoordinators[index] == coordinator {
          RemoveFirstAt<Coordinator>(childCoordinators, coordinator, index);
          childCoordinators := childCoordinators[..index] + childCoordinators[index + 1..];
          return;
        }
        index := index + 1;
      }
      RemoveFirstAbsent<Coordinator>(childCoordinators, coordinator);
    }
  }

  lemma {:induction false} TornDownLeaves(g: Graph<Coordinator>, c: Coordinator)
    ensures forall n :: n in g && g[n] == [] ==> TornDown<Coordinator>(g, c)[n] == []
  {
  }
}
