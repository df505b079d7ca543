# Alarma: a verified model

Alarma is an iOS alarm app on the Realm database. This project models, in Dafny, the
state machines at its core and in the Realm library it ships with, and proves what
they promise.

- **Coordinators** (`CoordinatorGraph`, `Coordinators`, `Launch`). The tree of flow
  coordinators may share sub-trees and even run in circles. `removeDependency` tears it
  down recursively while it changes it; it is shown to return exactly when no circle of
  two or more coordinators lies below, and to leave a closed form. The launch protocol
  of the application coordinator runs on top of it.
- **Index sets** (`Ranges`, `Chunks`, `RangeVectors`, `RangeOps`, `RangeBuilders`,
  `IndexSets`, `IndexCounts`, `SetOperations`). Sets of row indices are kept as ranges in
  chunks with cached bounds and counts. The container, its iterators and every operation,
  on single indices and on whole sets, are proved against their meaning for the members.
- **Change sets** (`Changes`, `Histories`, `Merges`, `MergeCounts`, `ChangeBuilder`,
  `TableChanges`). The builder of collection notifications is proved against an account of
  where every row came from, and the account against the history itself: whatever happens
  to a list or a table, taking the deletions out of the old rows and putting the
  insertions in gives the new ones. Merging two change sets is shown to report the
  composition of their accounts, and to agree with recording both histories in one.
- **Changes between query results** (`Matches`, `Stayers`, `Pairings`, `Walks`,
  `Overtakers`, `Diffs`, `FewestMoves`, `ResultsNotifiers`). The comparison of two
  results, with its search for longest common blocks, yields such a change set for all old
  and new rows; without a sort it does so exactly under a condition on the two orders,
  which every table meets whose rows are only added at the end and deleted by moving the
  last one over. Which rows stay and which are reported moved is determined in both cases.
- **Objects and lists** (`Records`, `RecordLaws`, `RecordRuns`, `RecordRefusals`,
  `RecordWrites`, `RecordDiffs`, `RecordNesting`, `RecordEchoes`, `Accessors`). Upsert by
  primary key with nested objects, links and lists, in full and differential mode, in and
  outside migrations, with every error path.
- **Dates** (`Timestamps`), **repositories** (`Repositories`), **list splices**
  (`ListSplices`), **write transactions** (`Transactions`), **observation chains**
  (`Observations`), the **router** (`Routers`) and **cron strings** (`Crons`).

`Common` holds a little shared vocabulary. `dafny verify dfyconfig.toml` checks all of it.

Where a class updates its fields in place, so does its model; each method is tied to a
function of the old state, and the promises are proved about those functions and over
whole runs.

## Where the code falls short of what one would expect

These are theorems here, each with its exact condition and, where it helps, an example.

- `IndexSet::count` leaves a range out when it starts inside one chunk and ends within the
  first range of the next (`IndexCounts.CountRightIff`, `CountOverlooksARange`). Every
  set of more than one chunk's worth of longer ranges has such an interval
  (`WideSetsOverlook`). Where the result of a change set depends on it, it counts from
  zero and is right.
- `add_shifted_by` caches a wrong count when a copied range longer than one index opens a
  chunk that was not planned for; its members are right
  (`SetOperations.AddShiftedBy`, `LongOpenerArises`). After `merge` the members of all sets
  are then right as well, but the counts of the deletions are not
  (`ChangeBuilder.CollectionChangeBuilder.Merge`). Whether it happens can be read off the
  sets before the call (`MergeCounts.CountsKeptIff`, with the quick check `FewKeepCounts`);
  `MergeMiscounts` names two change sets where it does.
- Merging loses the modification mark of exactly those rows that the first change set
  inserted and modified and the second one moved without modifying them
  (`Merges.MergedIsRecordedIff`, `MarkLost`). Such a row is still reported as inserted.
- The search for common blocks goes on to the right of a block only if its end in the
  first list is below the end of the part in the *second* one, so common rows can be
  missed (`Matches.BlocksExhausted`, `CommonRowMissed`). Of two equally long blocks it
  should prefer the one with fewer modified rows, but counts other rows for the one found
  first: those up to where it begins (`Matches.TieIff`, `ModifiedBlockPreferred`).
  `PickedFewestIff` says exactly when the choice is right all the same. The resulting
  change set is right in any case, only larger than need be.
- Without a sort, a change set is wrong exactly when some row is overtaken by one that is
  no candidate for a move and does not give way: since it is no candidate either, or since
  it overtakes as many rows as there are rows at rest that overtake it (`Diffs.Calculate`,
  `Walks.GiveWayIff`, `Diffs.TurnedRound`). The one caller hands over the table's insertions as candidates. A table whose rows are only
  added at the end and deleted by moving the last one over never leads there
  (`ResultsNotifiers.ObserveTable`, `TableForward`); swaps of rows can (`SwapsMislead`).
- Without a sort, the report is said to be minimal when rows of the table only move by
  moving the last one over (collection_change_builder.cpp:524-525). It is not always: after
  deleting rows 1 and 0 of six, a result of the last three reports two moves where one
  would do (`ResultsNotifiers.TwoMovesForOne`). `FewestMoves.FewestIff` says exactly when
  it is.
- A differential write leaves a null where it should store a value that a typed read of
  the null cell gives (`RecordDiffs.DiffEqualsFullIff`, `DiffLosesReading`). What such a
  read gives is the core's to say, and its source is not part of this model: for truth
  values and whole numbers it is a parameter here (`Records.Env.nullReads`), and for
  strings, data, dates, floats and doubles, where a null is no value, nothing is lost.
  A differential write also leaves the tail of the old list when an element cannot be
  stored, where a full write leaves none of it.
- An object that carries, nested in itself, another one with its own key ends up with the
  values of the nested one, without an error (`RecordEchoes.LastSuppliedWins`,
  `NestedOverwrites`).
- The lower clamp of `RLMTimestampForNSDate` subtracts the epoch offset where it would
  have to add it, so timestamps up to twice the offset above the earliest one are moved
  to it (`Timestamps.TimestampRoundTripIff`).
- Saving a group with alarms, adding an alarm under another group's ID, or saving an alarm
  by itself under an existing group makes the group's list and the filter on `groupID`
  disagree (`Repositories.StepAgreesIff`).
- `removeDependency` does not return when a circle of two or more coordinators lies below
  the one removed, and only then (`CoordinatorGraph.RemoveReturnsIff`); the flows never
  build one (`RunStaysTame`).
- A failing final commit of `write` leaves the transaction open, and the next `write`
  raises (`Transactions.WriteMeans`, `WriteTwiceCrashes`).
- `setRootModule` strands the completions of the controllers it replaces
  (`Routers.StepOrphansIff`).

## Model
| member | source | states |
|---|---|---|
| CoordinatorGraph.RemoveReturnsIff | Alarma/Alarma/Parents/BaseCoordinator.swift:27-43 | `p.removeDependency(c)` returns exactly when `p` has no children or no cycle of two or more coordinators lies below `c`; every call that returns leaves the closed form: `c` dropped from `p` once, everything reachable from `c` left with at most its self-entries, nothing else touched |
| CoordinatorGraph.RemoveReturns | Alarma/Alarma/Parents/BaseCoordinator.swift:27-43 | for any graph of bounded height once self-edges are dropped, shared sub-trees included, the height bounds the depth of the recursion and the result is the closed form |
| CoordinatorGraph.ReturnedHasHeight | Alarma/Alarma/Parents/BaseCoordinator.swift:33-38 | a tear-down that returned started from a coordinator of bounded height, whatever order and sharing the recursion met |
| CoordinatorGraph.ProgressDone | Alarma/Alarma/Parents/BaseCoordinator.swift:34-38 | visiting the children one after the other, each visit seeing what the earlier ones left, tears down exactly what is reachable |
| CoordinatorGraph.BoundedIff | Alarma/Alarma/Parents/BaseCoordinator.swift:33-38 | the recursion below a coordinator is bounded exactly where no two or more coordinators below it run in a circle: then no way down is longer than the number of coordinators |
| CoordinatorGraph.AddKeepsCircleFreeIff | Alarma/Alarma/Parents/BaseCoordinator.swift:22-25 | adding a child keeps a graph free of circles, so that every tear-down returns, exactly when the child is the parent itself or does not lead back to it |
| CoordinatorGraph.AddThenRemove | Alarma/Alarma/Parents/BaseCoordinator.swift:22-43 | adding a child that does not lead back and removing it leaves the parent as it was and tears down just what is below the child |
| CoordinatorGraph.RemoveKeepsCircleFree | Alarma/Alarma/Parents/BaseCoordinator.swift:27-43 | removing never creates a circle |
| CoordinatorGraph.StepKeepsTame | Alarma/Alarma/Parents/BaseCoordinator.swift:22-43 | adopting a fresh coordinator or dropping a child keeps the graph closed, circle-free and without double entries; after a drop the child is registered no more |
| CoordinatorGraph.RunStaysTame | Alarma/Alarma/Parents/BaseCoordinator.swift:22-43 | over any run of adoptions and drops every drop on the way returns |
| Coordinators.Coordinator.AddDependency | Alarma/Alarma/Parents/BaseCoordinator.swift:22-25 | the object form: only a coordinator that is not there yet is appended; no other list changes |
| Coordinators.Coordinator.RemoveDependency | Alarma/Alarma/Parents/BaseCoordinator.swift:27-43 | the recursive, in-place tear-down over shared heap objects equals the closed form on the whole object graph |
| Coordinators.Coordinator.ClearChildren | Alarma/Alarma/Parents/BaseCoordinator.swift:34-38 | the recursive part leaves everything reachable with at most its self-entries |
| Launch.FiredKeeps | Alarma/Alarma/Application/ApplicationCoordinator.swift:56-87 | a finish callback replaces its child by one of strictly smaller rank, so the callbacks still possible go down by at least one |
| Launch.RunKeeps | Alarma/Alarma/Application/ApplicationCoordinator.swift:46-94 | over any run of starts and callbacks: flags never go back, the number of children is the number of starts, finishes are paid for out of three per start |
| Launch.LaunchRuns | Alarma/Alarma/Application/ApplicationCoordinator.swift:46-94 | from launch: notifications imply onboarding imply authorisation, children are distinct and each was permitted by the flags, at most `3n` finishes after `n` starts |
| Launch.SingleStart | Alarma/Alarma/Application/ApplicationCoordinator.swift:18-29 | with exactly one start anywhere in the run the only child after `k` finishes is the `k`-th of auth, onboarding, notifications, main |
| Launch.ApplicationCoordinator.Start | Alarma/Alarma/Application/ApplicationCoordinator.swift:46-54 | the object form of an external start: one new child at the end, of the flow the flags ask for; every other coordinator untouched |
| Launch.ApplicationCoordinator.FinishFlow | Alarma/Alarma/Application/ApplicationCoordinator.swift:56-87 | the callback: raise the flag, restart, tear the finished child down through `removeDependency`; the view changes as the protocol says |
| Chunks.StepsUndo | Alarma/Pods/Realm/include/index_set.hpp:277-313 | `--` undoes `++` and the reverse, across chunk boundaries and from `end` |
| Chunks.PosInjective | Alarma/Pods/Realm/include/index_set.hpp:262-275 | two iterators are equal exactly when the same number of ranges precedes them |
| Chunks.NextPos | Alarma/Pods/Realm/include/index_set.hpp:277-284 | `++` moves to the next range of the concatenation of all chunks |
| Chunks.VisitAll | Alarma/Pods/Realm/include/index_set.hpp:108-113 | stepping from `begin` to `end` visits the concatenation of all chunks |
| Chunks.VisitIndices | Alarma/Pods/Realm/include/index_set.hpp:192-219 | an index iterator yields each member of the set exactly once in ascending order and equals `end` only after the last, although its equality ignores the offset |
| Chunks.ChunkedRangeVectorIterator.Increment | Alarma/Pods/Realm/include/index_set.hpp:277-284 | the iterator object advances as the cursor function says |
| Chunks.ChunkedRangeVectorIterator.Decrement | Alarma/Pods/Realm/include/index_set.hpp:294-305 | the iterator object steps back as the cursor function says |
| RangeVectors.RangeVector.SetRange | Alarma/Pods/Realm/Realm/ObjectStore/src/index_set.cpp:31-43 | overwriting one range keeps the cached begin, end and count of its chunk right |
| RangeVectors.RangeVector.Insert | Alarma/Pods/Realm/Realm/ObjectStore/src/index_set.cpp:88-104 | inserting before an iterator, with a chunk split when it is full, is insertion into the flat list at that position |
| RangeVectors.RangeVector.EnsureSpace | Alarma/Pods/Realm/Realm/ObjectStore/src/index_set.cpp:106-142 | splitting a full chunk leaves the flat list as it was and returns an iterator at the same position |
| RangeVectors.RangeVector.Erase | Alarma/Pods/Realm/Realm/ObjectStore/src/index_set.cpp:144-170 | erasing, with an emptied chunk dropped, is removal from the flat list; the returned iterator is at the same position |
| RangeVectors.RangeVector.PushBack | Alarma/Pods/Realm/Realm/ObjectStore/src/index_set.cpp:72-86 | appending a range keeps all cached numbers right |
| RangeVectors.RangeVector.FindFrom | Alarma/Pods/Realm/Realm/ObjectStore/src/index_set.cpp:328-344 | the search by chunk ends and binary search within a chunk, from a hint, stops at the first range that ends after the index |
| IndexSets.IndexSet.Contains | Alarma/Pods/Realm/Realm/ObjectStore/src/index_set.cpp:273-277 | true exactly for members |
| IndexSets.IndexSet.DoAdd | Alarma/Pods/Realm/Realm/ObjectStore/src/index_set.cpp:678-707 | adds exactly the index, joining neighbouring ranges so that gaps remain between ranges; the returned iterator is right for continuing |
| IndexSets.IndexSet.AddShifted | Alarma/Pods/Realm/Realm/ObjectStore/src/index_set.cpp:359-373 | returns and adds the non-member with exactly `index` non-members below it |
| IndexSets.IndexSet.InsertAt | Alarma/Pods/Realm/Realm/ObjectStore/src/index_set.cpp:430-454 | opens `count` positions at `index` as members and moves later members up |
| IndexSets.IndexSet.ShiftForInsertAt | Alarma/Pods/Realm/Realm/ObjectStore/src/index_set.cpp:487-506 | opens `count` positions outside the set and moves later members up, splitting the range around `index` |
| IndexSets.IndexSet.EraseAt | Alarma/Pods/Realm/Realm/ObjectStore/src/index_set.cpp:535-540 | takes the position out of the index space: later members move down, ranges that come to touch are joined |
| IndexSets.IndexSet.Remove | Alarma/Pods/Realm/Realm/ObjectStore/src/index_set.cpp:617-644 | removes exactly the members in the interval; nothing moves |
| IndexSets.IndexSet.Shift | Alarma/Pods/Realm/Realm/ObjectStore/src/index_set.cpp:656-665 | the unique non-member with `index` non-members below it |
| IndexSets.IndexSet.EraseOrUnshift | Alarma/Pods/Realm/Realm/ObjectStore/src/index_set.cpp:573-615 | erases the position and, unless it was a member, returns how many non-members lie below it |
| RangeOps.ShiftedUnique | Alarma/Pods/Realm/Realm/ObjectStore/src/index_set.cpp:656-671 | shifting has at most one answer: shift and unshift are inverse on non-members |
| IndexCounts.Count | Alarma/Pods/Realm/Realm/ObjectStore/src/index_set.cpp:279-321 | what `count` returns for every set and every two indices, in either order: the members between them, less what one case overlooks |
| IndexCounts.CountRightIff | Alarma/Pods/Realm/Realm/ObjectStore/src/index_set.cpp:279-321 | `count` is right exactly when the interval does not start inside a chunk and end in the first range of the next one; starting at zero it always is |
| IndexCounts.CountOverlooksARange | Alarma/Pods/Realm/Realm/ObjectStore/src/index_set.cpp:291-301 | a set of 20 members where the count of an interval with 10 of them is 5 |
| IndexCounts.WideSetsOverlook | Alarma/Pods/Realm/Realm/ObjectStore/src/index_set.cpp:291-301 | every set of more ranges than a chunk holds, none a single index, has an interval with a wrong count |
| IndexCounts.AddPairs | Alarma/Pods/Realm/Realm/ObjectStore/src/index_set.cpp:346-349 | a run of single additions that produces such a set |
| IndexCounts.Unshift | Alarma/Pods/Realm/Realm/ObjectStore/src/index_set.cpp:667-671 | right for every non-member, since it counts from zero |
| Changes.OriginFound | Alarma/Pods/Realm/Realm/ObjectStore/src/impl/collection_change_builder.cpp:229-233 | unshifting a row past the insertions and shifting it past the deletions gives the old index of that very row |
| Changes.EraseStayed | Alarma/Pods/Realm/Realm/ObjectStore/src/impl/collection_change_builder.cpp:229-233 | erasing a row that stayed, as deletion of its origin, keeps the two remainders in step |
| Changes.ErasePlaced | Alarma/Pods/Realm/Realm/ObjectStore/src/impl/collection_change_builder.cpp:229-233 | a row inserted or moved earlier goes without a trace among the deletions |
| Changes.InsertTally | Alarma/Pods/Realm/Realm/ObjectStore/src/impl/collection_change_builder.cpp:195-201 | inserting rows keeps the two remainders in step |
| Changes.MovedMoves | Alarma/Pods/Realm/Realm/ObjectStore/src/impl/collection_change_builder.cpp:264-297 | after a move the listed moves follow their rows; a row that had stayed gets one move of its own |
| Changes.ErasedMoves | Alarma/Pods/Realm/Realm/ObjectStore/src/impl/collection_change_builder.cpp:235-244 | erasing forgets exactly the move to the erased row and follows the others |
| Changes.InsertedMoves | Alarma/Pods/Realm/Realm/ObjectStore/src/impl/collection_change_builder.cpp:203-206 | inserting shifts the listed moves with their rows |
| Changes.ForgetTally | Alarma/Pods/Realm/Realm/ObjectStore/src/impl/collection_change_builder.cpp:142-155 | dropping a move that comes to nothing, with its deletion and insertion, keeps the remainders in step |
| Changes.StillNotStale | Alarma/Pods/Realm/Realm/ObjectStore/src/impl/collection_change_builder.cpp:142-155 | dropping one such move makes no other come to nothing, so one pass is enough |
| Changes.SameRemainder | Alarma/Pods/Realm/Realm/ObjectStore/src/impl/collection_change_builder.cpp:162-309 | the old list without the deletions is the new list without the insertions, row by row in order |
| Changes.DeletionsExact | Alarma/Pods/Realm/Realm/ObjectStore/src/impl/collection_change_builder.cpp:229-309 | an old index is reported deleted exactly when no row of the new list stayed from it |
| ChangeBuilder.CollectionChangeBuilder.Insert | Alarma/Pods/Realm/Realm/ObjectStore/src/impl/collection_change_builder.cpp:195-206 | the three index sets and the moves report exactly the account with new rows at the place |
| ChangeBuilder.CollectionChangeBuilder.Erase | Alarma/Pods/Realm/Realm/ObjectStore/src/impl/collection_change_builder.cpp:229-245 | ... with the row taken out |
| ChangeBuilder.CollectionChangeBuilder.MoveTo | Alarma/Pods/Realm/Realm/ObjectStore/src/impl/collection_change_builder.cpp:264-309 | ... with the row at its new place, moved if it was there before, and still marked modified if it was |
| ChangeBuilder.CollectionChangeBuilder.Modify | Alarma/Pods/Realm/Realm/ObjectStore/src/impl/collection_change_builder.cpp:174-183 | ... with the row marked modified |
| ChangeBuilder.CollectionChangeBuilder.Clear | Alarma/Pods/Realm/Realm/ObjectStore/src/impl/collection_change_builder.cpp:247-262 | ... with every old row deleted; the old length found by counting is the true one |
| ChangeBuilder.CollectionChangeBuilder.CleanUpStaleMoves | Alarma/Pods/Realm/Realm/ObjectStore/src/impl/collection_change_builder.cpp:142-155 | same rows, with moves that come to nothing forgotten; none is left after one pass |
| ChangeBuilder.RecordAll | Alarma/Pods/Realm/Realm/ObjectStore/src/impl/collection_change_builder.cpp:142-309 | any history of a list gives a change set that leads from the old rows to the new ones, with moves between equal rows only and none that comes to nothing; where each row came from, whether it is marked and whether it moved are what the history says of that row |
| Histories.RowsAt | Alarma/Pods/Realm/Realm/ObjectStore/src/impl/collection_change_builder.cpp:174-309 | what each change makes of the rows of a list: which old row is now at a place, or which of the inserted ones |
| Histories.ItemsAt | Alarma/Pods/Realm/Realm/ObjectStore/src/impl/collection_change_builder.cpp:174-309 | and of the account: a row keeps its origin and its marks wherever it goes, is marked just by a modification where it is, and moved just by a move, if it was there before |
| Histories.HistoryTold | Alarma/Pods/Realm/Realm/ObjectStore/src/impl/collection_change_builder.cpp:142-309 | so over any history: the account of a row is its first place, whether a modification hit it where it then was, and whether it was ever moved |
| ChangeBuilder.MoveAndBack | Alarma/Pods/Realm/Realm/ObjectStore/src/impl/collection_change_builder.cpp:142-155 | moving a row and moving it back reports nothing at all |
| RecordRuns.RunKeeps | Alarma/Pods/Realm/include/object_accessor.hpp:43-57 | over any run of creations and property writes, nested and failing ones included: cells stay well typed and no link dangles; outside a migration keys stay unique, no key changes, no row disappears |
| RecordLaws.CreateLawful | Alarma/Pods/Realm/include/object_accessor.hpp:206-311 | creating or updating an object, with nested objects and lists, makes lawful writes only, all within the tables its links can lead to |
| RecordLaws.SetPropLawful | Alarma/Pods/Realm/include/object_accessor.hpp:77-148 | the same for a property write |
| RecordLaws.AssignFromLawful | Alarma/Pods/Realm/include/list.hpp:250-283 | the same for list assignment, where elements may be new objects |
| RecordRuns.CreateLeavesKey | Alarma/Pods/Realm/include/object_accessor.hpp:206-273 | a creation that returns outside a migration leaves its row with the key asked for - the one supplied, else the default, else null - and no other row has it: the row is the one that had this key before, if updating, or a new last one |
| RecordRefusals.CreateFitsIff | Alarma/Pods/Realm/include/object_accessor.hpp:206-311 | for types without links, a creation succeeds exactly if the key is there and fits, no other row has it unless updating, and every property that is written is supplied, has a default or may be missing, and fits |
| RecordRefusals.MigrationKeepsBoth | Alarma/Pods/Realm/include/object_accessor.hpp:250-258 | types without links: within a migration a creation without updating makes a new row with the key asked for, also where another row has it, and leaves the others |
| RecordRefusals.KeylessLinked | Alarma/Pods/Realm/include/object_accessor.hpp:265-273 | an object without a key written to a link: a new row each time in full mode, the row linked already in differential mode |
| RecordRefusals.CompleteSucceeds | Alarma/Pods/Realm/include/object_accessor.hpp:206-311 | with links and lists of links: a full upsert of an object whose values all fit, nested ones included, never fails |
| RecordRuns.CreateTouches | Alarma/Pods/Realm/include/object_accessor.hpp:206-311 | where no link leads back to the type: it touches its own row and tables reachable through links only; its table gets one more row exactly when the key was absent |
| RecordNesting.CreateSpares | Alarma/Pods/Realm/include/object_accessor.hpp:206-311 | for every schema: a row of any keyed type stays as it is unless its key is carried by the supplied object itself or one nested in it |
| RecordNesting.CreateHolds | Alarma/Pods/Realm/include/object_accessor.hpp:279-303 | for every schema, links and lists of links included: after a normal return every property other than the key holds its supplied value, on update otherwise the old one, on creation the default or the initial value; the one exception of differential writes is named. It asks that no nested object carries the key of the object itself |
| RecordNesting.ClosedAvoids | Alarma/Pods/Realm/include/object_accessor.hpp:206-311 | which no value can where no link leads back to the type |
| RecordEchoes.LastSuppliedWins | Alarma/Pods/Realm/include/object_accessor.hpp:279-303 | with any nesting, in either mode, a plain property of a keyed object ends with the value supplied for it last: by the object itself or by a nested one with its key; only a differential write may leave a null where that value is what the null reads as |
| RecordEchoes.NestedOverwrites | Alarma/Pods/Realm/include/object_accessor.hpp:279-303 | an object with key 1 and number 5, linked to one supplied with key 1 and number 7: the call returns, and the one row holds 7 |
| RecordNesting.PopulateHolds | Alarma/Pods/Realm/include/object_accessor.hpp:275-303 | what the populate loop leaves of a row, with nested objects, links and lists of links |
| RecordNesting.SetPropHolds | Alarma/Pods/Realm/include/object_accessor.hpp:67-148 | what a property write leaves, links and lists of links included; no other cell of the row changes |
| RecordNesting.AssignFromHolds | Alarma/Pods/Realm/include/list.hpp:250-283 | after an assignment of links or new objects that returns, in either mode, the list holds all of them in order |
| RecordDiffs.PopulateResult | Alarma/Pods/Realm/include/object_accessor.hpp:283-303 | for types without links: the populate loop succeeds exactly when every property does, and only the own row changes (with links: `RecordNesting.PopulateHolds`) |
| RecordDiffs.SetPropResult | Alarma/Pods/Realm/include/object_accessor.hpp:67-148 | what a write of a plain property leaves; in differential mode it writes nothing exactly when the cell stays (with links: `RecordNesting.SetPropHolds`) |
| RecordDiffs.SameWriteIff | Alarma/Pods/Realm/include/object_accessor.hpp:67-73 | differential and full writes of a plain property fail alike and leave the same cell unless the value is written over a null that a typed read takes for it (or a list write fails before the old list is used up); whatever a null of a truth value or whole number reads as, no other kind is affected |
| RecordDiffs.DiffEqualsFullIff | Alarma/Pods/Realm/include/object_accessor.hpp:206-311 | without links, differential and full creation leave the same tables exactly if nothing is written over a null that reads as it |
| RecordDiffs.DiffLosesReading | Alarma/Pods/Realm/include/object_accessor.hpp:70-72 | a new object with a nullable number: full mode stores it, differential mode leaves null exactly when a null reads as that number |
| RecordWrites.AssignResult | Alarma/Pods/Realm/include/list.hpp:250-283 | assignment of a list of plain values, both modes, every old list and value: the elements up to the first bad one, and for a differential failure the rest of the old list; differential mode makes exactly the needed writes, one per difference |
| RecordWrites.NoDifferenceIff | Alarma/Pods/Realm/include/list.hpp:237-246 | a differential assignment makes no write exactly when the list is already there |
| RecordWrites.TrimResult | Alarma/Pods/Realm/include/list.hpp:270-275 | the trimming loop ends with the source length |
| Accessors.Transaction.CreateObject | Alarma/Pods/Realm/include/object_accessor.hpp:206-273 | the method on tables in place does what the specification says, error by error |
| Accessors.Transaction.PopulateObject | Alarma/Pods/Realm/include/object_accessor.hpp:275-303 | the populate loop in place |
| Accessors.Transaction.SetPropertyImpl | Alarma/Pods/Realm/include/object_accessor.hpp:77-148 | the property write in place |
| Accessors.Transaction.SetPropertyValueOf | Alarma/Pods/Realm/include/object_accessor.hpp:43-57 | the public setter, with the ban on key writes |
| Accessors.Transaction.AssignList | Alarma/Pods/Realm/include/list.hpp:250-283 | list assignment in place |
| Accessors.Transaction.AssignItems | Alarma/Pods/Realm/include/list.hpp:260-282 | its element loop and trimming loop |
| Accessors.Transaction.SetIfDifferent | Alarma/Pods/Realm/include/list.hpp:237-246 | compare-and-set of one element, with the checks of `List::set` |
| Records.FindFirst | Alarma/Pods/Realm/include/object_accessor.hpp:341-356 | the first row with the key, or none |
| Timestamps.TimestampForDate | Alarma/Pods/Realm/include/RLMUtil.hpp:144-167 | seconds in 64 bits, nanoseconds below a second, no opposite signs; the total is the interval rounded toward the reference date plus the epoch offset; no intermediate overflow |
| Timestamps.ReferenceDate | Alarma/Pods/Realm/include/RLMUtil.hpp:137-167 | the offset between the two clocks is the days of the calendar from 1970 to 2001; the reference date is that instant, and the epoch comes before it by as much |
| Timestamps.Converted | Alarma/Pods/Realm/include/RLMUtil.hpp:144-167 | the value for every date: the epoch for what is not a number, the first and the last instant of 64-bit seconds beyond the bounds, and between them the nanoseconds since 1970 |
| Timestamps.Monotone | Alarma/Pods/Realm/include/RLMUtil.hpp:144-167 | later dates never give earlier timestamps, across both clamps and the infinities |
| Timestamps.DateRoundTrip | Alarma/Pods/Realm/include/RLMUtil.hpp:137-167 | a date comes back rounded toward the reference date by less than a nanosecond |
| Timestamps.TimestampRoundTripIff | Alarma/Pods/Realm/include/RLMUtil.hpp:137-167 | a valid timestamp comes back exactly when it is not in the last whole second (but its end) nor below the earliest second plus twice the epoch offset (but the earliest) |
| Timestamps.LostNearTheBottom | Alarma/Pods/Realm/include/RLMUtil.hpp:152-153 | a valid timestamp that the lower clamp moves |
| Timestamps.OrderIsTotals | Alarma/Pods/Realm/include/core/realm/timestamp.hpp:115-143 | the order of the timestamp class is the order of total nanoseconds |
| Repositories.StepAgreesIff | Alarma/Alarma/Services/GroupsRepository.swift:22-53 | each repository call keeps a group's list and the filter on its ID in agreement exactly when: a saved group is empty; an alarm added to an existing group carries its ID; a separately saved alarm names no existing group |
| Repositories.RunAgrees | Alarma/Alarma/Services/GroupsRepository.swift:17-53 | agreement over every run of such calls |
| Repositories.SameAlarms | Alarma/Alarma/Services/AlarmsRepository.swift:16-21 | agreement in terms of what the two fetches return |
| Repositories.StepTold | Alarma/Alarma/Services/GroupsRepository.swift:17-53 | what each call does to the groups and alarms that the fetches return: an alarm added to a group is the last of its list, enabling changes that flag of that group or alarm only, in every list it is in, and removing takes out just what it should |
| Repositories.RunTold | Alarma/Alarma/Services/AlarmsRepository.swift:16-42 | the same over every run of both repositories |
| Repositories.RemoveGroupClean | Alarma/Alarma/Services/GroupsRepository.swift:30-38 | removing a group leaves no alarm with its ID and every other group and alarm as it was |
| Repositories.FetchAfterRemove | Alarma/Alarma/Services/GroupsRepository.swift:17-20 | fetching afterwards returns the same groups but for that one |
| Repositories.SaveRoundTrip | Alarma/Alarma/Model/RealmGroup.swift:16-41 | a saved group comes back equal up to the generated keys, alarms and weekdays in order |
| Repositories.SaveAddsOnly | Alarma/Alarma/Services/GroupsRepository.swift:22-28 | saving adds one group and one alarm per list entry and overwrites nothing |
| Repositories.RunSound | Alarma/Alarma/Model/RealmAlarm.swift:51-60 | in every reachable database the forced weekday unwrap succeeds and every list entry is stored |
| Repositories.NewAlarm | Alarma/Alarma/Model/RealmAlarm.swift:28-49 | the conversion loop stores the weekdays in order |
| Repositories.Repository.Save | Alarma/Alarma/Services/GroupsRepository.swift:22-28 | the method in place, group and alarms |
| Repositories.Repository.Remove | Alarma/Alarma/Services/GroupsRepository.swift:30-38 | the method in place, with unlinking |
| Repositories.Repository.Update | Alarma/Alarma/Services/GroupsRepository.swift:40-46 | the method in place; nothing when the group is missing |
| Repositories.Repository.RemoveOne | Alarma/Alarma/Services/AlarmsRepository.swift:36-42 | deleting an alarm unlinks it everywhere |
| ListSplices.List.ReplaceSubrange | Alarma/Pods/RealmSwift/RealmSwift/List.swift:493-502 | repeated removal and reversed insertion is the splice, for every range, with exactly the partial effect of an exception |
| ListSplices.List.ReplaceByContents | Alarma/Pods/RealmSwift/RealmSwift/List.swift:662-689 | the other form does the same |
| ListSplices.List.RemoveSubrange | Alarma/Pods/RealmSwift/RealmSwift/List.swift:622-627 | cuts the range; past the end it raises with the tail gone |
| ListSplices.List.InsertContentsOf | Alarma/Pods/RealmSwift/RealmSwift/List.swift:609-615 | inserts all elements in order or none |
| ListSplices.List.RemoveFirst | Alarma/Pods/RealmSwift/RealmSwift/List.swift:574-584 | the suffix; nothing is removed when the number is too large or negative |
| ListSplices.List.RemoveLast | Alarma/Pods/RealmSwift/RealmSwift/List.swift:592-602 | the prefix; likewise |
| ListSplices.SpliceWithin | Alarma/Pods/RealmSwift/RealmSwift/List.swift:493-502 | for a range within the list: prefix, new elements, suffix |
| ListSplices.SpliceUndo | Alarma/Pods/RealmSwift/RealmSwift/List.swift:493-502 | replacing back undoes a replacement |
| ListSplices.SplicesCommute | Alarma/Pods/RealmSwift/RealmSwift/List.swift:493-502 | replacements of disjoint ranges commute |
| Transactions.WriteMeans | Alarma/Pods/RealmSwift/RealmSwift/Realm.swift:152-161 | for every block that does not crash: what is committed is what the block itself committed, plus what it left open if it returns; after a throw nothing more; a transaction stays open exactly when the last commit fails |
| Transactions.BlockShows | Alarma/Pods/RealmSwift/RealmSwift/Realm.swift:217-251 | at every point the committed store is the kept segments and the visible one the open segment on top |
| Transactions.CommittedOnlyByCommit | Alarma/Pods/RealmSwift/RealmSwift/Realm.swift:241-251 | without a successful commit the committed store does not change |
| Transactions.WriteTwiceCrashes | Alarma/Pods/Realm/Realm/ObjectStore/src/shared_realm.cpp:634-641 | a write inside a transaction raises before its block runs |
| Transactions.Realm.Write | Alarma/Pods/RealmSwift/RealmSwift/Realm.swift:152-161 | the method in place |
| Transactions.Realm.CancelWrite | Alarma/Pods/Realm/Realm/ObjectStore/src/shared_realm.cpp:686-697 | rollback restores the committed store |
| Transactions.WriteStores | Alarma/Pods/RealmSwift/RealmSwift/Realm.swift:152-161 | after a `write` that does not crash each key holds the value of the last addition of it among the edits that were kept, is gone if a deletion of it came later, and is as before if no edit names it |
| Transactions.ChangeRaisesIff | Alarma/Pods/Realm/Realm/RLMObjectStore.mm:108-203 | an edit raises exactly outside a transaction, for an object deleted, of another realm or observed, for a key in use without updating, and for deleting an object that is not in this realm |
| Transactions.Realm.Perform | Alarma/Pods/Realm/Realm/RLMObjectStore.mm:108-203 | the method in place, with when it raises |
| Observations.Info.ForEach | Alarma/Pods/Realm/include/RLMObservation.hpp:115-130 | from any info of a chain: the predecessors backwards, then the rest |
| Observations.VisitsEachOnce | Alarma/Pods/Realm/include/RLMObservation.hpp:115-130 | so each info of the chain exactly once |
| Observations.ClassInfo.SetRow | Alarma/Pods/Realm/Realm/RLMObservation.mm:140-155 | a newly observed object joins its row's chain behind the head or starts one; the chains stay well formed, disjoint, one per row |
| Observations.LatestAfterFirst | Alarma/Pods/Realm/Realm/RLMObservation.mm:140-155 | the first observer of a row is told first, then the others, the latest first |
| Observations.ClassInfo.Remove | Alarma/Pods/Realm/Realm/RLMObservation.mm:66-101 | a destroyed info leaves well-formed chains; a head is replaced in the array |
| Observations.ClassInfo.NotifyAll | Alarma/Pods/Realm/Realm/RLMObservation.mm:107-131 | notifying from any info of a row reaches every registered info of that row, each once |
| Observations.ClassInfo.Find | Alarma/Pods/Realm/Realm/RLMObservation.mm:261-274 | finds the head of the row's chain, and none only if no info has the row |
| Routers.StepRuns | Alarma/Alarma/Router/RouterImp.swift:66-94 | a pop runs exactly the waiting completions of the popped controllers, in order; nothing else runs any |
| Routers.RunConserves | Alarma/Alarma/Router/RouterImp.swift:50-94 | over any run with fresh controllers each registered completion has run once or still waits, never both |
| Routers.RunPending | Alarma/Alarma/Router/RouterImp.swift:50-94 | over any run with fresh controllers every controller still on the stack that was pushed with a completion has that very completion waiting |
| Routers.PushPop | Alarma/Alarma/Router/RouterImp.swift:50-70 | a pop takes off the controller pushed last and runs the completion given with it |
| Routers.PopsUndoPushes | Alarma/Alarma/Router/RouterImp.swift:50-70 | as many pops as pushes bring back the stack and what waited, and run the completions given with the pushes, the last one first |
| Routers.PopToRootUndoesPushes | Alarma/Alarma/Router/RouterImp.swift:50-94 | popping to a lone root runs them the first one first |
| Routers.StepOrphansIff | Alarma/Alarma/Router/RouterImp.swift:76-80 | pushes and pops strand no completion; a new root strands every waiting one but its own |
| Routers.OrphanWaits | Alarma/Alarma/Router/RouterImp.swift:76-94 | a stranded completion never runs unless its controller becomes the root again |
| Routers.Router.PopToRootModule | Alarma/Alarma/Router/RouterImp.swift:82-88 | the method in place |
| Routers.Router.PushModule | Alarma/Alarma/Router/RouterImp.swift:50-60 | the method in place |
| Crons.PrintParseIff | Alarma/Pods/SwiftCron/Sources/CronRepresentation.swift:50-69 | a printed representation parses back exactly when no field contains a space; otherwise it does not parse |
| Crons.ParsePrint | Alarma/Pods/SwiftCron/Sources/CronRepresentation.swift:50-69 | a string parses exactly when it has five spaces; it is then made of minute, hour, day, month, weekday and year in this order, and prints back as it was |
| Crons.SplitJoinIff | Alarma/Pods/SwiftCron/Sources/CronRepresentation.swift:58-63 | splitting recovers joined parts exactly when none contains a space |
| Crons.JoinSplit | Alarma/Pods/SwiftCron/Sources/CronRepresentation.swift:58-63 | joining what was split gives the string back |
| RangeBuilders.RangeBuilder.PushBack | Alarma/Pods/Realm/Realm/ObjectStore/src/index_set.cpp:224-252 | appending a range, merged into the last one or opening a chunk: the flat list is the one expected, and the cached count is right unless a range longer than one index opens a chunk that was not planned |
| RangeBuilders.RangeBuilder.Finalize | Alarma/Pods/Realm/Realm/ObjectStore/src/index_set.cpp:254-265 | the finished chunks hold the appended ranges; all cached numbers are right exactly when no count was missed on the way |
| SetOperations.AddAll | Alarma/Pods/Realm/Realm/ObjectStore/src/index_set.cpp:351-357 | the union, with each search going on from the last addition |
| SetOperations.AddShiftedBy | Alarma/Pods/Realm/Realm/ObjectStore/src/index_set.cpp:375-420 | values outside the second set join the first one, each at the non-member that has its rank; always the right members, and right cached counts exactly when no long copied range opens an unplanned chunk |
| SetOperations.LongOpenerArises | Alarma/Pods/Realm/Realm/ObjectStore/src/index_set.cpp:243-244 | sets for which the cached count comes out wrong: 255 ranges of two indices and two values below them |
| SetOperations.InsertAll | Alarma/Pods/Realm/Realm/ObjectStore/src/index_set.cpp:456-485 | opens all positions of the second set at once, as members; the rest keeps its rank |
| SetOperations.PartAll | Alarma/Pods/Realm/Realm/ObjectStore/src/index_set.cpp:508-533 | the same, with the opened positions outside the set |
| SetOperations.EraseAll | Alarma/Pods/Realm/Realm/ObjectStore/src/index_set.cpp:542-571 | takes all positions of the second set out of the index space at once |
| SetOperations.RemoveAll | Alarma/Pods/Realm/Realm/ObjectStore/src/index_set.cpp:646-654 | the difference; each search goes on from where the last removal ended |
| Merges.ComposedTracks | Alarma/Pods/Realm/Realm/ObjectStore/src/impl/collection_change_builder.cpp:41-140 | the account of two change sets one after the other is true of the rows before both and after both |
| Merges.ShiftedRank | Alarma/Pods/Realm/Realm/ObjectStore/src/index_set.cpp:375-420 | the two remainders, counted past a rank, stay equal when deletions of the second change set are added to those of the first |
| Merges.MergedTally | Alarma/Pods/Realm/Realm/ObjectStore/src/impl/collection_change_builder.cpp:122-128 | the merged deletions and insertions leave the same remainder on both sides, in step with the composed account |
| Merges.MergedInserted | Alarma/Pods/Realm/Realm/ObjectStore/src/impl/collection_change_builder.cpp:126-128 | the merged insertions are exactly the rows that are new or moved in the composed account |
| Merges.ComposedSources | Alarma/Pods/Realm/Realm/ObjectStore/src/impl/collection_change_builder.cpp:122-124 | moved rows of the composed account come from distinct places among the merged deletions |
| Merges.MergedMoves | Alarma/Pods/Realm/Realm/ObjectStore/src/impl/collection_change_builder.cpp:65-120 | first moves followed, second moves traced back: together exactly the moves of the composed account, one each |
| Merges.MergedModified | Alarma/Pods/Realm/Realm/ObjectStore/src/impl/collection_change_builder.cpp:132-136 | the merged modifications are exactly the rows marked in the composed account |
| Merges.MergedIsRecordedIff | Alarma/Pods/Realm/Realm/ObjectStore/src/impl/collection_change_builder.cpp:41-140 | recording one history after the other in one change set gives row by row the account that merging two gives, except exactly for the marks of rows that the first history inserted and modified and the second one moved and did not modify |
| Merges.MarkLost | Alarma/Pods/Realm/Realm/ObjectStore/src/impl/collection_change_builder.cpp:95-111 | a row inserted and modified first and moved then loses its mark when merged, not when recorded |
| Merges.CountsKeptExactly | Alarma/Pods/Realm/Realm/ObjectStore/src/index_set.cpp:375-420 | the condition under which merging leaves right counts is about one set only: what is added is determined by the sets |
| MergeCounts.CountsKeptIff | Alarma/Pods/Realm/Realm/ObjectStore/src/index_set.cpp:375-420 | the condition in terms of the three sets alone: no long range of the first deletions, past all that is added, with before it just as many ranges of the union as fill whole chunks, more than planned |
| MergeCounts.FewKeepCounts | Alarma/Pods/Realm/Realm/ObjectStore/src/index_set.cpp:375-420 | it holds whenever the ranges of the first deletions and the second deletions together fit the chunks planned |
| Merges.ApartKeepsCounts | Alarma/Pods/Realm/Realm/ObjectStore/src/index_set.cpp:243-244 | it holds whenever no two deletions are neighbours |
| MergeCounts.MergeMiscounts | Alarma/Pods/Realm/Realm/ObjectStore/src/index_set.cpp:243-244 | two sound change sets, with deletions only, for which it does not hold |
| ChangeBuilder.CollectionChangeBuilder.Merge | Alarma/Pods/Realm/Realm/ObjectStore/src/impl/collection_change_builder.cpp:41-140 | the members of all sets and the moves report exactly the composed account, less moves that come to nothing, whether one of the two is empty or none; the cached counts are right whenever the sets keep them, and only change sets with moves need that; if neither is empty no move that comes to nothing is left; the other change set is left empty |
| ChangeBuilder.MergeUndone | Alarma/Pods/Realm/Realm/ObjectStore/src/impl/collection_change_builder.cpp:41-140 | merging a change set that takes every row back to where it was leaves both empty |
| ChangeBuilder.CollectionChangeBuilder.FollowMoves | Alarma/Pods/Realm/Realm/ObjectStore/src/impl/collection_change_builder.cpp:65-93 | moves are carried on through the second change set: redirected if the row was moved again, dropped if it was deleted, shifted otherwise; marks of rows moved again go along |
| ChangeBuilder.CollectionChangeBuilder.DropInserted | Alarma/Pods/Realm/Realm/ObjectStore/src/impl/collection_change_builder.cpp:95-101 | second moves of rows that were inserted first are ignored, and only those |
| ChangeBuilder.CollectionChangeBuilder.TraceBack | Alarma/Pods/Realm/Realm/ObjectStore/src/impl/collection_change_builder.cpp:113-118 | the remaining second moves start from where their rows were in the beginning |
| ChangeBuilder.CollectionChangeBuilder.MergeSets | Alarma/Pods/Realm/Realm/ObjectStore/src/impl/collection_change_builder.cpp:122-128 | deletions and insertions of the composed account; the cached counts of the deletions are right exactly under the condition |
| ChangeBuilder.MergeRows | Alarma/Pods/Realm/Realm/ObjectStore/src/impl/collection_change_builder.cpp:41-140 | merging the change set of a second history leads from the rows before both to the rows after both, also where cached counts go wrong if there are no moves |
| ChangeBuilder.CollectionChangeBuilder.Finalize | Alarma/Pods/Realm/Realm/ObjectStore/src/impl/collection_change_builder.cpp:867-887 | modifications by old index are exactly those of rows that stayed, by new index exactly those of rows not reported inserted |
| ChangeBuilder.FinalInOld | Alarma/Pods/Realm/Realm/ObjectStore/src/impl/collection_change_builder.cpp:867-873 | erasing the insertions and then opening the deletions turns new indices of rows that stayed into their old ones |
| Changes.AppliedGivesNew | Alarma/Pods/Realm/Realm/ObjectStore/src/impl/collection_change_builder.cpp:847-862 | taking the deletions out of the old rows and putting the insertions in, one by one, gives the new rows |
| Matches.PickedLongest | Alarma/Pods/Realm/Realm/ObjectStore/src/impl/collection_change_builder.cpp:615-685 | the block found is at least as long as any common block of the two parts |
| Matches.PickedBlock | Alarma/Pods/Realm/Realm/ObjectStore/src/impl/collection_change_builder.cpp:661-680 | and it is a common block within the two parts |
| Matches.LongestCommonSubsequenceCalculator.FindLongestMatch | Alarma/Pods/Realm/Realm/ObjectStore/src/impl/collection_change_builder.cpp:615-685 | the row by row search over sorted entries, with lengths of the previous row only, makes the same choice as going through all pairs |
| Matches.LongestCommonSubsequenceCalculator.FindLongestMatches | Alarma/Pods/Realm/Realm/ObjectStore/src/impl/collection_change_builder.cpp:687-702 | the recursive search in place appends the blocks left, here and right, in order |
| Matches.BlocksAligned | Alarma/Pods/Realm/Realm/ObjectStore/src/impl/collection_change_builder.cpp:687-702 | all blocks found are common blocks, in the same order and without overlap in both lists |
| Matches.BlocksExhausted | Alarma/Pods/Realm/Realm/ObjectStore/src/impl/collection_change_builder.cpp:697-701 | no gap between blocks has a row in common, except where the guard of the right part stops the search: where the block ends in the first list past the end of the gap in the second one |
| Matches.CommonRowMissed | Alarma/Pods/Realm/Realm/ObjectStore/src/impl/collection_change_builder.cpp:700 | two lists of seven rows where that guard misses a common row |
| Matches.TieIff | Alarma/Pods/Realm/Realm/ObjectStore/src/impl/collection_change_builder.cpp:668-680 | of two equally long blocks the later one is taken exactly if fewer of its rows are modified than were counted for the earlier one, and which rows those are; a one-row block has its own row counted |
| Matches.PickedFewestIff | Alarma/Pods/Realm/Realm/ObjectStore/src/impl/collection_change_builder.cpp:615-685 | for all lists: exactly when the block chosen has the fewest modified rows of all longest ones |
| Matches.FairCount | Alarma/Pods/Realm/Realm/ObjectStore/src/impl/collection_change_builder.cpp:671-677 | it has if the first longest block is one row, or as many rows are modified among those counted for it as among its own |
| Matches.ModifiedBlockPreferred | Alarma/Pods/Realm/Realm/ObjectStore/src/impl/collection_change_builder.cpp:671-677 | two equally long blocks where the one with a modified row is chosen, since its rows are not the ones counted |
| Pairings.Pair | Alarma/Pods/Realm/Realm/ObjectStore/src/impl/collection_change_builder.cpp:758-830 | sorting and merging joins rows of both results one to one; no row is left over on both sides |
| Pairings.Sort | Alarma/Pods/Realm/Realm/ObjectStore/src/impl/collection_change_builder.cpp:778-789 | the given elements in order, none lost or doubled |
| Diffs.ExpectedIff | Alarma/Pods/Realm/Realm/ObjectStore/src/impl/collection_change_builder.cpp:549-556 | a row is at its expected place - its old place, less the rows removed before it, against its new place, less the rows inserted before it - exactly when it got in front of as many rows that stay as rows to come got in front of it |
| Walks.InOrderIff | Alarma/Pods/Realm/Realm/ObjectStore/src/impl/collection_change_builder.cpp:526-566 | the rows that stay are in the old order exactly if every row that got in front of one of them is a candidate and not at its expected place |
| Walks.GiveWayIff | Alarma/Pods/Realm/Realm/ObjectStore/src/impl/collection_change_builder.cpp:526-566 | the same condition read off the orders and the candidates, without the walk: every row overtaken by one that cannot have moved is a candidate, and it does not overtake as many rows as there are rows at rest that overtake it |
| Walks.OvertakenIff | Alarma/Pods/Realm/Realm/ObjectStore/src/impl/collection_change_builder.cpp:539-549 | a row is overtaken by one that stays exactly if by one that cannot have moved |
| Walks.OthersStayKept | Alarma/Pods/Realm/Realm/ObjectStore/src/impl/collection_change_builder.cpp:526-566 | they are if only candidates overtake others |
| Walks.SharedWhole | Alarma/Pods/Realm/Realm/ObjectStore/src/impl/collection_change_builder.cpp:796-830 | with distinct rows, which rows are in both results and in which order is determined by the two results |
| Diffs.CalculateMovesUnsorted | Alarma/Pods/Realm/Realm/ObjectStore/src/impl/collection_change_builder.cpp:526-566 | the rows that stay are those the walk leaves, which compares nothing but the orders; moves, insertions and removals are exactly the others |
| Diffs.RightExactlyInOrder | Alarma/Pods/Realm/Realm/ObjectStore/src/impl/collection_change_builder.cpp:505-525 | with distinct rows the deletions and insertions fit the rows exactly if what stays is in the old order |
| Diffs.RightOnlyIf | Alarma/Pods/Realm/Realm/ObjectStore/src/impl/collection_change_builder.cpp:526-566 | so the result is wrong when two rows that are no candidates changed their order |
| Diffs.TurnedRound | Alarma/Pods/Realm/Realm/ObjectStore/src/impl/collection_change_builder.cpp:526-566 | three rows turned round, the first no candidate: no two others changed their order, and the result is wrong |
| Diffs.SecondMoves | Alarma/Pods/Realm/Realm/ObjectStore/src/impl/collection_change_builder.cpp:526-566 | two rows turned round, only the second a candidate: the first overtakes it, and the result is right |
| Diffs.CalculateMovesSorted | Alarma/Pods/Realm/Realm/ObjectStore/src/impl/collection_change_builder.cpp:705-754 | rows outside the common blocks are deleted and inserted, the others are the same on both sides in the same order; what stays is exactly the common beginning of the two orders and the common blocks found after it |
| Stayers.LongestStays | Alarma/Pods/Realm/Realm/ObjectStore/src/impl/collection_change_builder.cpp:705-754 | at least as many rows stay as the longest common block of the two orders has |
| Stayers.UnmatchedUnsearched | Alarma/Pods/Realm/Realm/ObjectStore/src/impl/collection_change_builder.cpp:687-702 | a row of both orders lies between two stayers on both sides only where the guard stopped the search |
| Diffs.StayersEconomical | Alarma/Pods/Realm/Realm/ObjectStore/src/impl/collection_change_builder.cpp:705-754 | both in terms of the deletions and insertions of distinct rows |
| Diffs.AlignedStay | Alarma/Pods/Realm/Realm/ObjectStore/src/impl/collection_change_builder.cpp:745-753 | the loop over the blocks leaves out just the places of the blocks |
| Diffs.AccountHolds | Alarma/Pods/Realm/Realm/ObjectStore/src/impl/collection_change_builder.cpp:758-843 | rows that stay, moves and rest make up an account the change set reports exactly |
| Diffs.Calculate | Alarma/Pods/Realm/Realm/ObjectStore/src/impl/collection_change_builder.cpp:758-865 | for all old and new rows a valid change set that leads from one to the other, always with a sort; without one if only candidates overtake others, and with distinct rows exactly if every row overtaken by one that cannot have moved gives way; which rows stay, in both cases, and which are reported moved; only rows that were there and changed are marked, and all of those that occur once |
| Walks.RestersKept | Alarma/Pods/Realm/Realm/ObjectStore/src/impl/collection_change_builder.cpp:526-566 | where all give way, which rows the walk leaves, without the walk |
| Overtakers.QuietKept | Alarma/Pods/Realm/Realm/ObjectStore/src/impl/collection_change_builder.cpp:526-566 | if only candidates overtake others, the walk leaves just the rows that overtake none |
| FewestMoves.JustOvertakersMove | Alarma/Pods/Realm/Realm/ObjectStore/src/impl/collection_change_builder.cpp:526-566 | in terms of the results: a row in both is deleted, inserted again and reported moved exactly if it got in front of another one; nothing else is reported moved |
| FewestMoves.NoneLeavesMoreIff | Alarma/Pods/Realm/Realm/ObjectStore/src/impl/collection_change_builder.cpp:515-525 | for all reports that lead from the old to the new rows: the most rows any of them leaves is the length of a longest choice of rows in the old order |
| FewestMoves.FewestIff | Alarma/Pods/Realm/Realm/ObjectStore/src/impl/collection_change_builder.cpp:515-525 | the promise of a minimal report, if only candidates overtake others: it is met exactly if the rows that overtake none are as many as a longest choice in the old order, and surely if any two rows that overtake others changed their own order, too |
| Chunks.ChunkedRangeVectorIterator.NextChunk | Alarma/Pods/Realm/include/index_set.hpp:315-320 | on to the first range of the next chunk |
| Repositories.Repository.Enable | Alarma/Alarma/Services/GroupsRepository.swift:48-53 | the method in place |
| Repositories.Repository.SaveOne | Alarma/Alarma/Services/AlarmsRepository.swift:23-27 | the method in place; the alarm is in no list |
| Repositories.Repository.EnableOne | Alarma/Alarma/Services/AlarmsRepository.swift:30-34 | the method in place |
| Routers.Router.PopModule | Alarma/Alarma/Router/RouterImp.swift:66-70 | the method in place |
| Routers.Router.SetRootModule | Alarma/Alarma/Router/RouterImp.swift:76-80 | the method in place |
| TableChanges.TableChangeBuilder.MoveOver | Alarma/Pods/Realm/Realm/ObjectStore/src/impl/collection_change_builder.cpp:311-380 | deleting a row by moving the last one over: deletions, insertions, marks and the move mapping report exactly the account with the last row in the place of the deleted one |
| TableChanges.TableChangeBuilder.Swap | Alarma/Pods/Realm/Realm/ObjectStore/src/impl/collection_change_builder.cpp:382-447 | ... with two rows in each other's place, whether none, one or both were moved before |
| TableChanges.TableChangeBuilder.Append | Alarma/Pods/Realm/Realm/ObjectStore/src/impl/collection_change_builder.cpp:195-227 | ... with a new row at the end |
| TableChanges.TableChangeBuilder.ParseComplete | Alarma/Pods/Realm/Realm/ObjectStore/src/impl/collection_change_builder.cpp:156-172 | rows back in their old place are reported no more; the other moves are listed by their old places, and the change set reports exactly the account |
| TableChanges.ContentsAllAt | Alarma/Pods/Realm/Realm/ObjectStore/src/impl/collection_change_builder.cpp:156-447 | what any history makes of the rows of a table, on the rows alone |
| TableChanges.AfterAllAt | Alarma/Pods/Realm/Realm/ObjectStore/src/impl/collection_change_builder.cpp:156-447 | and of the account: where each row came from, that it is marked exactly if it was touched where it then was, and when it counts as moved |
| TableChanges.TellsTracks | Alarma/Pods/Realm/Realm/ObjectStore/src/impl/collection_change_builder.cpp:156-447 | the reported account is true of the rows before and after the history |
| TableChanges.TrackTable | Alarma/Pods/Realm/Realm/ObjectStore/src/impl/collection_change_builder.cpp:156-447 | any history of a table gives a sound change set that says of every row what the history did to it |
| TableChanges.TableTally | Alarma/Pods/Realm/Realm/ObjectStore/src/impl/collection_change_builder.cpp:311-447 | where no row shifts, deletions and insertions leave the same remainder |
| ResultsNotifiers.CurrentRow | Alarma/Pods/Realm/Realm/ObjectStore/src/impl/results_notifier.cpp:136-144 | for every reported change of a table, an old row index becomes the index that very row has now, or none if the row is gone |
| ResultsNotifiers.ResultsNotifier.FollowRows | Alarma/Pods/Realm/Realm/ObjectStore/src/impl/results_notifier.cpp:133-145 | the loop over all old rows, in place |
| ResultsNotifiers.ResultsNotifier.CalculateChanges | Alarma/Pods/Realm/Realm/ObjectStore/src/impl/results_notifier.cpp:117-153 | the reported changes lead from the old rows, as they are now, to the new ones: always if the result is sorted or the table unchanged, in table order if rows of the table only moved to the front, and else exactly if every row overtaken by one that cannot have moved gives way |
| ResultsNotifiers.TableForward | Alarma/Pods/Realm/Realm/ObjectStore/src/impl/collection_change_builder.cpp:311-380 | which they do in every history of rows added at the end and deleted by moving the last one over |
| ResultsNotifiers.ObserveTable | Alarma/Pods/Realm/Realm/ObjectStore/src/impl/results_notifier.cpp:117-153 | from the steps on the table to the report: in any history without swaps the changes reported of a result in table order lead to the new result; moved are just the rows that got in front of others, and the report is minimal exactly under the condition on the two orders |
| ResultsNotifiers.TwoMovesForOne | Alarma/Pods/Realm/Realm/ObjectStore/src/impl/collection_change_builder.cpp:515-525 | two rows deleted by moving the last one over, after which two moves are reported where one would do |
| ResultsNotifiers.CandidatesOnly | Alarma/Pods/Realm/Realm/ObjectStore/src/impl/collection_change_builder.cpp:515-525 | then only candidates overtake other rows |
| ResultsNotifiers.SwapsMislead | Alarma/Pods/Realm/Realm/ObjectStore/src/impl/collection_change_builder.cpp:382-447 | two swaps of table rows after which the changes of a result in table order come out wrong |

## Left out
- Views, view controllers, factories, the tab bar, EventKit, deep-link parsing: user interface wiring.
- Sync, permissions, schema comparison and migration steps, thread-safe references, notification delivery: calls into code that is not part of this model.
- `LinkingObjects`: the lazily filled cache of its query.
- Change builder: `subsume` and the per-column modification sets. `insert` with move tracking off only shifts the modifications; it is not modelled. `clear` without a known size is not modelled. Tables are changed at the top level only: rows are added at the end, and none are inserted or erased in between.
- ChangeBuilder.CollectionChangeBuilder.Merge: where there are moves, asks that the cached counts stay right (`CountsKept`, which `MergeCounts.CountsKeptIff` reads off the three sets); what dropping stale moves does with wrong counts is not modelled.
- ChangeBuilder.MergeRows: asks the same.
- Diffs.Calculate: with rows listed twice in one result, only which of the paired rows stay, and without a sort that it is right if only candidates overtake others; which of the equal rows are paired is left open.
- Diffs.StayersEconomical: distinct rows; where rows are listed twice, a longer common block may be missed for the common beginning.
- Results notifiers: running the query, hand-over between threads, and the first run, which only stores the rows.
- Matches: the depth of the recursion and the wrap-around of a count's start below zero beyond its finding nothing.
- Indices, counts and rows are unbounded naturals; a wrap-around of the machine's 64-bit sizes is not modelled, except in `Timestamps`, where the 64-bit range is proved never to be left.
- Records: lists of nullable elements, linking-objects properties, observers' callbacks during a write, and a null string stored in a list of non-null strings (the core's answer is not shown). Floats are compared as values, so a negative zero and not-a-number do not arise. Supplied stored objects are taken to exist; a single link is not checked for its type by the code, and the model asks for the right type only in `RecordLaws.Live`.
- RecordRuns.CreateLeavesKey: outside migrations only; within one, the code allows duplicate keys on purpose (`RecordRefusals.MigrationKeepsBoth`).
- RecordRefusals.MigrationKeepsBoth: types without links, full mode.
- RecordRefusals.KeylessLinked: targets without links.
- RecordDiffs.DiffEqualsFullIff: types without links only; with links, a differential write of an object without a key reuses the linked row on purpose. What either mode stores with links is `RecordNesting.CreateHolds`.
- RecordDiffs.PopulateResult: types without links; the others are in `RecordNesting.PopulateHolds`.
- RecordDiffs.SetPropResult: plain properties; links are in `RecordNesting.SetPropHolds`.
- RecordWrites.AssignResult: lists of plain values; lists of links are in `RecordNesting.AssignFromHolds`.
- RecordNesting.CreateHolds: objects in which the own key does not occur again; for those where it does, `RecordEchoes.LastSuppliedWins` says what plain properties end with, and of links and lists of links nothing is said.
- RecordEchoes.LastSuppliedWins: plain properties and lists of plain values.
- RecordRefusals.CreateFitsIff: types without links; for those with links `RecordRefusals.CompleteSucceeds` says what is enough.
- RecordRefusals.CompleteSucceeds: full mode, updating.
- RecordRuns.CreateTouches: types that no link leads back to; `RecordNesting.CreateSpares` covers the others by their keys.
- Launch: a coordinator that has finished and calls its finish callback once more.
- Dates: intervals are exact reals; floating-point rounding is not modelled.
- Repositories: results are sets, since the order of the table is not promised; the discarded `sorted` call in `update` has no effect. Keys from the generator are taken to be new.
- List splices: a collection that is the list itself.
- Transactions: one realm on one thread; a commit may fail, and then leaves the transaction open (the storage layer's own code is not part of this model). Object handles invalidated by a rollback are not modelled; whether an object is managed, and where, is part of each edit.
- Observations: callbacks do not change the chain while it is walked; rows keep their identity, so the shifting of row accessors when rows are deleted is not modelled.
- Router: completions do not call back into the router.
- Cron: matching and description text.
