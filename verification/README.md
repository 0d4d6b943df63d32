# The Scheduler, its log and its merge queue, in Dafny

The system runs coding agents against a repository. People submit Goals; a Scheduler turns each into tickets, claims
ready tickets for workers, verifies and merges what they propose, lets a worker split its ticket into subtasks, retries
or fails what goes wrong, and delivers a finished Goal's branch. Everything it knows is one append-only log of events,
which it replays before each step; workers, people at the command line and the Scheduler itself all append to that log,
and any of them can die at any moment.

This project models that as state machines over the log and proves what holds of every run, and, where a property the
code or its documentation states does not hold, gives the run that breaks it and the condition under which it does hold.

| module | models |
|---|---|
| `Events`, `Replay`, `Store`, `Spending` | events, and the state a log replays to: as a function, and as an object updated in place |
| `TaskGraph`, `Digraph`, `Recursion` | complete, dead, blocked and promotable tickets; the cycle search; when the recursions over subtasks return |
| `Plans`, `Liveness`, `Stalls` | what one pass decides, and when the run loop gives up |
| `Decompose`, `GraphGrowth`, `GraphRuns`, `LiteralPlans`, `DecomposeLimits` | splitting a ticket, and the dependency graph while several workers do it at once |
| `Scheduler`, `Lifecycle`, `Safety`, `Runs`, `GoalBranches` | the control loop, workers, front doors and crashes as one machine; its invariant; what holds of every run |
| `Scenes`, `LostBranch` | concrete runs of that machine |
| `Orchestrator`, `Forward` | one reconcile pass as the imperative program it is; what its appends leave of the calls it makes later |
| `History`, `Checkers` | the rules a history is checked against, and the checkers |
| `Budget`, `Reopening` | the dispatch step at the grain of its separate reads |
| `MergeQueue`, `ThreeWay`, `BatchMerge` | merging, verifying and batching, over any repository and over a path-level one |
| `LocalBase` | cutting worktrees while the queue moves HEAD |
| `Lines`, `Ledger`, `Writers`, `Tail` | the log as bytes: scanning, torn writes, several writers, followers |
| `Usage`, `Status`, `FrontDoor` | spend accounts, the status projection, the transactional verbs |

Ticket identities are the log's own strings. Times are integers, dollars are reals, and the encoding of an event is any
injective encoding without newlines. What an agent returns, what the Gate says of a commit and what git makes of a merge
are parameters, so every statement is for all of them. A run is any sequence of steps; a step that is not enabled
does nothing.

## Model

| member | source | states |
|---|---|---|
| `Runs.MergesAreSound` | internal/invariant/invariant.go:70-206 | in every run, with crashes anywhere: a merge is the Scheduler's, its ticket's only one, comes after a Gate pass with no proposal of the ticket in between, after an approval if the ticket was ever parked, and not for work proposed or approved after its Goal's cancel |
| `Runs.CheckersFindNothing` | internal/invariant/invariant.go:39-51 | so in every run the log is numbered without gaps and the four merge checkers report nothing |
| `Safety.NextKeepsInv` | internal/orchestrator/orchestrator.go:253-466 | each step of the Scheduler, a worker, a front door or a crash keeps the machine's invariant, and whatever it appends keeps every rule |
| `Runs.WrittenBy` | internal/orchestrator/orchestrator.go:1333-1340 | every event of a run was appended by one step of it, onto exactly the log before it |
| `Runs.TerminalForGood` | internal/state/state.go:58-60 | merged, failed and decomposed tickets stay so for the rest of any run, with the children they were split into |
| `Runs.VerdictsForGood` | internal/state/state.go:599-643 | complete stays complete and dead stays dead in every run, and what is one is never the other |
| `Runs.TicketsInOrder` | internal/state/state.go:655-669 | in every run a ticket beyond pending and not failed has all dependencies complete, has an active attempt exactly while claimed or running, and only pending tickets are ever blocked |
| `Runs.DecisionsAreOnce` | cmd/aoa/main.go:1383-1438 | in every run, an approval or denial that goes through is reported, with its event, to whoever repeats it, and refused to whoever contradicts it |
| `GoalBranches.BranchesOnlyGrow` | internal/orchestrator/orchestrator.go:1070-1080 | in every run no Goal branch ever loses a commit or changes its base |
| `GoalBranches.BranchesAreSafe` | internal/orchestrator/deliver.go:34-55 | in pull-request mode, with crashes anywhere: a Goal's branch is at the base it was cut from, or grown from it by merges to a commit the Gate passed, and it holds every commit ever logged as merged for the Goal, each of which the Gate passed |
| `GoalBranches.LostExactly` | internal/orchestrator/orchestrator.go:1065-1079 | a Goal has lost track of its branch exactly if the queue once erred on work that was on the branch, the branch not being at the Goal's latest logged merge, and no merge was logged for it since |
| `GoalBranches.DeliveriesAreExact` | internal/invariant/invariant.go:208-245 | every delivery of every run is its Goal's first and finds every task complete; it names the commit of the Goal's latest merge if and only if the Goal had not lost track of its branch |
| `GoalBranches.DeliveriesFindNothing` | internal/orchestrator/deliver.go:80-108 | in every run without such an error the delivery checker reports nothing |
| `LostBranch.DeliversAnotherCommit` | internal/orchestrator/orchestrator.go:1070-1077 | a run that delivers a commit that is not the Goal's latest merge; in pull-request mode, with a Gate that passes every commit, room in the governors, five attempts or more, and no approvals, backoff or crash-loop limit |
| `History.VerifiedMeans` | internal/invariant/invariant.go:70-89 | the verified-merge rule, kept in running marks, read off the positions of the events |
| `History.HonouredMeans` | internal/invariant/invariant.go:177-206 | the cancel rule, read off the positions of cancel, proposal, approval and merge |
| `History.OnceMeans` | internal/invariant/invariant.go:93-111 | the one-merge rule, read off the positions of the merges |
| `History.ApprovedMeans` | internal/invariant/invariant.go:152-171 | the approval rule, read off the positions of request and grant |
| `History.DeliveredOnceMeans` | internal/invariant/invariant.go:212-245 | the one-delivery rule, read off the positions of the deliveries |
| `History.LandedMeans` | internal/invariant/invariant.go:225-241 | a Goal's latest landing is the commit of the last merge on the log of a ticket of that Goal |
| `Lifecycle.TerminalLeftExactly` | internal/state/state.go:206-385 | replay alone lets exactly these events move a terminal ticket: a claim, a start, a split of one not split, a merge of one not merged |
| `Replay.ApplyIsLocal` | internal/state/state.go:173-574 | an event moves the one ticket it names, or creates one, and leaves every other ticket, the keys and the order as they were |
| `Replay.ApplySpares` | internal/state/state.go:173-574 | and leaves every Goal it neither names nor owns a named ticket of as it was, up to what it is charged |
| `Store.Replica.Apply` | internal/state/state.go:173-574 | the in-place update of the replayed state is the transition function |
| `Store.Replica.Charge` | internal/state/state.go:20-30 | a charge reaches the ticket, its Goal and the total, or none of them |
| `Store.Load` | internal/state/state.go:162-170 | replaying a log event by event gives the state of the whole log |
| `TaskGraph.NeverBoth` | internal/state/state.go:602-643 | no ticket of any state is both complete and dead |
| `TaskGraph.VerdictsStay` | internal/state/state.go:602-643 | both verdicts survive any change that leaves terminal tickets alone |
| `TaskGraph.AnswersTruly` | internal/state/state.go:602-643 | what a call of either recursion returns, its loop over children left at the first answer that ends it, is the verdict |
| `TaskGraph.DepsAreDone` | internal/state/state.go:590-597 | the loop over dependencies answers whether all are complete, if the calls it makes return |
| `TaskGraph.NewlyReady` | internal/state/state.go:737-745 | the list of pending tickets whose dependencies are complete and whose Goal is not cancelled, in log order, if the calls it makes return |
| `TaskGraph.DeadDependency` | internal/state/state.go:646-653 | the first dead dependency in order, and none exactly if there is none, if the calls it makes return |
| `TaskGraph.Blocked` | internal/state/state.go:658-669 | the list of unfinished tickets with a dead dependency, in log order, if the calls it makes return |
| `TaskGraph.InOrderIsExact` | internal/state/state.go:579-587 | such a list holds exactly the tickets it should |
| `TaskGraph.ComputeOutcome` | internal/state/state.go:859-905 | the one loop over tickets gives the outcome defined by counting over all of a Goal's tickets, if the calls it makes return whatever ticket comes first |
| `TaskGraph.IsGoalComplete` | internal/state/state.go:822-834 | the loop answers whether the Goal has tickets and all of them are complete, if its calls return whatever ticket comes first |
| `Digraph.HasCycle` | internal/state/state.go:697-726 | the three-colour search returns true exactly if the graph has a cycle, whatever order it visits the nodes in |
| `Digraph.Search.Visit` | internal/state/state.go:704-720 | a visit that finds nothing leaves finished nodes in an order in which every edge points back |
| `Digraph.TopologicalOrder` | internal/state/state.go:694-696 | a graph without a cycle has such an order of all its nodes |
| `Recursion.ReturnsExactly` | internal/state/state.go:599-643 | a call returns if and only if the calls it makes, each within the one before, never come back to a ticket; a call visits a ticket's children up to the first that is not complete, or the first that is dead |
| `Recursion.AllReturnExactly` | internal/state/state.go:599-643 | so calls on every ticket return if and only if the graph of the children visited has no cycle |
| `Recursion.FailedSiblingReturns` | internal/state/state.go:610-617 | a ticket may be its own descendant and every call return: a failed child before it ends both loops |
| `Recursion.NonAdoptingReturns` | internal/orchestrator/orchestrator.go:924 | all calls return in every run in which no subtask's key names an existing ticket, since a new child's id extends its parent's |
| `DecomposeLimits.SelfAdoptionHangs` | internal/orchestrator/orchestrator.go:793-800 | a run of the whole machine after which the calls that a Goal's outcome makes on its first ticket never return: a subtask adopted the ticket being split; in any configuration with room in the governors |
| `GraphRuns.RecursionsReturn` | internal/state/state.go:599-643 | all calls return in every run of the whole machine in which nothing is adopted |
| `Decompose.Decide` | internal/orchestrator/orchestrator.go:761-876 | a worker's subtasks are accepted exactly if well named, within the governors, without unknown dependencies and without a cycle against the log; the children are those of the plan |
| `Decompose.WouldCycle` | internal/state/state.go:683-692 | the check against the log answers whether the log's graph with the new edges has a cycle |
| `GraphGrowth.AlwaysAcyclic` | internal/orchestrator/orchestrator.go:861-908 | however accepted plans interleave, each checked against whatever part of the others is on the log by then, and wherever they are cut short and taken up again, the dependency graph never has a cycle, if handles hold no slash and a ticket is split again only while no other plan is in flight |
| `GraphGrowth.HeadingIsExact` | internal/state/state.go:680-692 | no two plans in flight being about to create one id or use one key, the log can come to hold a cycle, later plans being guarded, if and only if the graph of the log and of all children still coming has one; children that are on the log already, or whose key is, are not coming |
| `GraphGrowth.HeadingIsSafe` | internal/state/state.go:680-692 | whatever collides: if that graph has no cycle, the log never comes to hold one while later plans are guarded |
| `GraphGrowth.AloneIsGuarded` | internal/orchestrator/orchestrator.go:793-800 | with no other plan in flight the code's check against the log suffices, also for a ticket split before a crash |
| `GraphGrowth.FreshIsGuarded` | internal/orchestrator/orchestrator.go:836-865 | it suffices too, whatever else is in flight, when the new ids are named nowhere |
| `GraphRuns.GraphIsAcyclic` | internal/invariant/invariant.go:247-262 | so no run of the whole machine under those two rules ever has a cycle |
| `DecomposeLimits.TwiceDecomposedCycles` | internal/orchestrator/orchestrator.go:793-800 | a run of the whole machine that ends with a cycle, two tickets having been split again after crashes, all handles plain; in any configuration with room in the governors and no retry backoff |
| `DecomposeLimits.SlashedHandlesCycle` | internal/orchestrator/orchestrator.go:924 | a run of the whole machine that ends with one, with a slash in a handle, no ticket claimed twice; in any configuration with room in the governors |
| `Liveness.StuckExactly` | internal/orchestrator/orchestrator.go:217-247 | after a pass that did nothing, with nothing live, Run reports "made no progress" if and only if a ticket is pending with none ready, or a backoff ran out between the pass and the check |
| `Liveness.QuietIsFinished` | internal/orchestrator/orchestrator.go:186-250 | with nothing parked, no backoff, and the waiting graph closed and acyclic, such a pass is the last: the error is out of reach |
| `Liveness.QuietLeaves` | internal/orchestrator/orchestrator.go:253-466 | what such a pass leaves unsettled is parked, serving a backoff, or pending on a dependency neither complete nor dead |
| `Liveness.PendingIsBehindSomething` | internal/orchestrator/orchestrator.go:437-449 | a ticket left pending is behind a parked one, or something waits on an id that is not on the log, or tickets wait on one another in a circle |
| `Stalls.OwnParentStalls` | internal/state/state.go:680-692 | a run that ends in that error with nothing failed and no circular dependency: a child that names its own parent; in any configuration with room in the governors |
| `Stalls.BackoffStalls` | internal/orchestrator/orchestrator.go:240-246 | a run in which Run waits for a backoff, or gives up if it has run out by the check; in local mode, with any backoff and retries never cut off |
| `Stalls.ParkedStalls` | internal/orchestrator/orchestrator.go:1112-1127 | a run that ends in the error with a ticket parked for approval and another behind it; in local mode, approvals required, a Gate that passes every commit |
| `Plans.BackoffDoubles` | internal/orchestrator/orchestrator.go:1161-1173 | each retry waits twice as long as the one before, up to the seventh |
| `Orchestrator.Scheduler.ReconcileOnce` | internal/orchestrator/orchestrator.go:253-466 | a pass without budgets and pull requests only appends, and one that appends and launches nothing, with nothing live, has found nothing to do in any of its steps; the calls of its promotion and failure steps return if they would have at its start |
| `Orchestrator.Scheduler.DispatchReady` | internal/orchestrator/orchestrator.go:314-384 | it launches only dispatchable tickets, no more than there are free slots, and something whenever it can, and counts each once more as in flight and nothing else |
| `Orchestrator.Scheduler.EnforceCancellations` | internal/orchestrator/orchestrator.go:985-999 | it appends a failure for exactly the unfinished tickets of cancelled Goals that are not claimed, running or in flight, and nothing else |
| `Orchestrator.Scheduler.PromoteReady` | internal/orchestrator/orchestrator.go:305-314 | it appends a promotion for exactly the promotable tickets |
| `Orchestrator.Scheduler.FailBlockedTickets` | internal/orchestrator/orchestrator.go:437-449 | it appends a failure for exactly the tickets behind dead work |
| `Orchestrator.Scheduler.RestartStalled` | internal/orchestrator/orchestrator.go:451-466 | it appends a stall and a restart for exactly the attempts that timed out |
| `Orchestrator.Scheduler.MarkDispatching` | internal/orchestrator/orchestrator.go:499-508 | it adjusts one in-flight count, never below zero, and forgets a count of zero |
| `Orchestrator.Scheduler.ActiveAttempts` | internal/orchestrator/orchestrator.go:530-538 | it counts, for each ticket, the larger of its active attempts and those in flight |
| `Forward.BlockingOnwards` | internal/orchestrator/orchestrator.go:437-449 | while nothing that has ended is reopened and nothing is split, looking for blocked tickets keeps returning: what is dead stays dead, and ends the loops it ended |
| `Forward.PromotionOnwards` | internal/orchestrator/orchestrator.go:301-312 | and looking for tickets to promote does, while nothing is merged either |
| `Budget.OvershootIsBounded` | internal/orchestrator/orchestrator.go:321-338 | under every interleaving of the Scheduler's separate reads with workers, at most `concurrency` attempts are live, and a run spends, in tokens or in dollars, less than its limit plus `concurrency` times the largest charge |
| `Budget.BudgetsReached` | internal/orchestrator/budget.go:25-58 | the loop over windows answers whether some window's spend is used up, exactly which windows tripped, and how many Goals may still start without passing any window's limit |
| `Reopening.ClaimsReopenNothing` | internal/orchestrator/orchestrator.go:316-381 | at the grain of separate reads, no claim ever reopens a ticket, in any run that launches on what the log says at the launch and leaves launched tickets alone |
| `Reopening.SafeExactly` | internal/orchestrator/orchestrator.go:316-381 | wherever that machine stands, every claim of every guarded continuation finds its ticket waiting if and only if every ticket launched and not yet claimed waits |
| `Reopening.LaunchIsSafeExactly` | internal/orchestrator/orchestrator.go:357-381 | after any guarded run a launch is safe, whatever guarded steps follow, if and only if its ticket waits on the log as it then is |
| `Reopening.NoteIsSafeExactly` | internal/orchestrator/orchestrator.go:933-977 | and an append about a launched ticket is, if and only if the ticket waits after it |
| `Reopening.MergedIsReopened` | internal/orchestrator/orchestrator.go:1179-1200 | without the first guard, a run whose last claim reopens a merged ticket |
| `Reopening.MergedTwice` | internal/invariant/invariant.go:91-111 | and a run in which the reopened ticket is proposed again and merged a second time, each merge right after a Gate pass on a proposed ticket |
| `Reopening.FailedIsReopened` | internal/orchestrator/orchestrator.go:933-977 | without the second, a run whose last claim reopens a ticket its Goal's budget failed |
| `MergeQueue.Process` | internal/mergequeue/mergequeue.go:92-142 | HEAD ends at the merge exactly if the Gate passed it, otherwise where it was, and the outcome says which |
| `MergeQueue.DryRun` | internal/mergequeue/mergequeue.go:149-186 | HEAD does not move, nothing is reported merged, and verified means the real merge would land |
| `MergeQueue.Select` | internal/mergequeue/mergequeue.go:203-220 | a proposal is in the batch exactly if its files are known, not none, and disjoint from those of every member before it; the others are serial |
| `MergeQueue.TryBatch` | internal/mergequeue/mergequeue.go:222-259 | the batch lands together exactly if it stacks without conflict and the Gate passes the union |
| `MergeQueue.ProcessBatch` | internal/mergequeue/mergequeue.go:200-287 | a green batch lands, then the rest one at a time; otherwise HEAD and outcomes are those of everything one at a time |
| `MergeQueue.SeriallyOverwrites` | internal/mergequeue/mergequeue.go:261-287 | what a batch that failed wrote into the outcomes shows nowhere in what the fallback returns |
| `MergeQueue.BatchIsSafe` | internal/mergequeue/mergequeue.go:188-287 | either way outcomes line up with the proposals, and HEAD is where it was or at a commit the Gate passed |
| `ThreeWay.AnyOrder` | internal/mergequeue/mergequeue.go:188-199 | in a path-level three-way merge, pairwise disjoint proposals that are each clean merge in any order, to one tree |
| `BatchMerge.BatchStacksInAnyOrder` | internal/mergequeue/mergequeue.go:222-243 | so a greedy batch whose members merge alone stacks, and in any other order to the same tree, in any repository that lists a branch's changed files rightly or not at all: its one Gate run judges what no order could change |
| `BatchMerge.BatchLandsWhatSerialDoes` | internal/mergequeue/mergequeue.go:188-199 | if the Gate would pass every commit on the way, one at a time lands the batch's own commit |
| `LocalBase.CutsAreKept` | internal/orchestrator/orchestrator.go:562-597 | worktrees are cut from kept commits only, however cuts, launches and Gate runs interleave, if no crash leaves a candidate on HEAD |
| `LocalBase.CrashIsSafeExactly` | internal/orchestrator/orchestrator.go:567-597 | after any such run a crash is safe, whatever follows it, if and only if no unkept candidate is on HEAD |
| `Lines.ScanLines` | internal/ledger/ledger.go:373-418 | the index loop over bytes computes the recursive scan |
| `Lines.IncrementalScan` | internal/ledger/ledger.go:363-418 | for all bytes and any growth, scanning on from where an earlier scan stopped gives exactly the rest of the full scan's lines and the same end, and a corrupt prefix stays corrupt |
| `Lines.ResumedScan` | internal/ledger/ledger.go:312-341 | the same for the offsets a reader resumes from |
| `Ledger.Log.Sync` | internal/ledger/ledger.go:247-276 | the handle's incremental sync computes the sync function, on disk and in the handle |
| `Ledger.Log.Append` | internal/ledger/ledger.go:100-119 | what an append does to disk, handle and caller, for every point a write can be cut at |
| `Ledger.Log.Update` | internal/ledger/ledger.go:135-162 | the same for a read-decide-append transaction |
| `Ledger.SyncIsExact` | internal/ledger/ledger.go:239-276 | after a sync the torn tail is gone, the events are untouched and the next number is right, whatever the handle knew |
| `Ledger.WriteIsExact` | internal/ledger/ledger.go:164-191 | wherever a write is cut, exactly its whole lines are on the log, numbered on |
| `Writers.LogIsGapless` | internal/ledger/ledger.go:100-191 | for any number of handles appending and dying at any byte: the log reads back numbered 1 to N, every acknowledged event is on it, and each handle's next sync leaves it about to write N + 1 |
| `Writers.LogOnlyGrows` | internal/ledger/ledger.go:205-276 | no event once readable disappears or moves |
| `Writers.TransactionSeesTheLog` | internal/ledger/ledger.go:121-162 | a transaction decides on exactly the log its events follow |
| `Tail.TailLog` | cmd/aoa/main.go:1058-1090 | the polling loop hands over what the follower function says |
| `Tail.FollowingOnlyRises` | cmd/aoa/main.go:1058-1116 | whatever happens to the file, numbers handed over only rise |
| `Tail.FollowingMissesNothing` | cmd/aoa/main.go:1029-1090 | on an append-only log a follower hands over every event after its start exactly once, in order, and never part of a line |
| `Usage.USD` | internal/state/spend.go:92-98 | the loop over models, in any order, gives the sum |
| `Usage.AddReads` | internal/state/spend.go:56-77 | adding a charge moves every meter by the charge's weight |
| `Usage.ComputeUsage` | internal/state/budget.go:33-51 | the loop gives the spend of the selected charges and the Goals first claimed at a selected event |
| `Usage.TotalsAgreeExactly` | internal/state/state.go:20-30 | the replayed total is the whole-log window's if and only if every charge names a ticket on the log |
| `Usage.TotalIsTicketSum` | internal/state/state.go:20-30 | on every log the total spend is the sum over its tickets |
| `Usage.DaysPartition` | internal/state/budget.go:11-51 | the day windows sum to the whole-log window, each started Goal counted in exactly one |
| `Usage.SpendIsConserved` | internal/state/spend.go:24-77 | the replayed total, the sum over tickets, the whole-log window and the sum of the days are one figure |
| `Status.Project` | cmd/aoa/status.go:46-56 | the replay loop gives the state, and the conditions recomputed for the Goals each event moved, if the calls it makes return |
| `Status.InStepExactly` | cmd/aoa/status.go:172-215 | recomputing only the Goals an event moved agrees, all along a log, with recomputing all of them, if and only if no event changes, for a Goal it does not move, whether all its tickets are complete, or, where nothing else settles its outcome, whether one is dead |
| `Status.FallsBehindBySplit` | cmd/aoa/status.go:172-200 | an event that does is about a ticket that is not the Goal's but was split, directly or not, off one that is |
| `Status.IncrementalIsFull` | cmd/aoa/status.go:202-215 | it does, statuses and times, on every log whose tickets' children are of their own Goal |
| `Status.ReplaysDiffer` | cmd/aoa/status.go:172-200 | a log on which the two differ, and for which Goal: the one whose ticket adopted another Goal's is recorded as not verified although it is |
| `Status.SinceIsExact` | cmd/aoa/status.go:205-215 | a condition keeps its time if its status is what it was, whatever became of its reason, and otherwise has the time of the event |
| `Status.ComputeConditions` | internal/state/state.go:927-1035 | the loop over tickets gives the conditions defined by quantifying over them, if the calls it makes return |
| `FrontDoor.SubmitOnce` | cmd/aoa/main.go:490-529 | a keyed submit that went through answers every later one with its own Goal and event |
| `FrontDoor.DecideOnce` | cmd/aoa/main.go:1383-1438 | a decision is reported to whoever repeats it and refused to whoever contradicts it |
| `FrontDoor.CancelOnce` | cmd/aoa/main.go:1494-1526 | a cancel is reported to whoever repeats it, and makes the Goal's outcome cancelled |
| `Checkers.MonotonicGaplessSeq` | internal/invariant/invariant.go:55-64 | the checker lists exactly the events out of number |
| `Checkers.MergeImpliesVerified` | internal/invariant/invariant.go:70-89 | it lists exactly the merges with no Gate pass on their latest proposal |
| `Checkers.MergedAtMostOnceByQueue` | internal/invariant/invariant.go:93-111 | it lists exactly the merges that are not the Scheduler's or not their ticket's first |
| `Checkers.ApprovalGate` | internal/invariant/invariant.go:152-171 | it lists exactly the merges of parked tickets never approved |
| `Checkers.CancelHonored` | internal/invariant/invariant.go:177-206 | it lists exactly the merges of work proposed or approved after its Goal's cancel |
| `Checkers.DeliveredOnceAndVerified` | internal/invariant/invariant.go:212-245 | it lists exactly the deliveries that are repeated, incomplete, or of another commit than the latest merge, if the calls it makes return |
| `Checkers.AcyclicGraph` | internal/invariant/invariant.go:249-262 | it reports a cycle exactly if the log's dependency graph has one |
| `Checkers.NoDuplicateMergedKey` | internal/invariant/invariant.go:116-146 | it reports a clash exactly if two tickets created with one key were both merged |
| `Checkers.KeysAreUnique` | internal/state/state.go:206-231 | on every log whatsoever no two tickets share a key |

## Findings

Properties that the code or its documentation states, and that the model shows to fail. Each has a run or a log, and the
condition under which it does hold.

- **A delivery carries the Goal's latest merge** (`internal/invariant/invariant.go:208-245`). Two proposals of one Goal;
  the first is merged and recorded, the second's merge is on the branch when the process dies before it is recorded; on
  restart the queue errs on that proposal, and the ticket's next attempt is split into work that is already merged. The
  Goal is then complete, and the branch delivered holds a merge the log does not (`LostBranch.DeliversAnotherCommit`).
  Exactly: a delivery is of the latest merge unless the queue once erred on work that was on the branch, the branch not
  being at the latest merge, with no merge recorded since (`GoalBranches.DeliveriesAreExact`, `LostExactly`). The guard
  is local to one Goal: before treating a queue error as a failed attempt, look whether the work is on the branch.
- **The task graph is always acyclic** (`docs/design/adr/007-emergent-decomposition-and-graph-governor.md:44`). A
  decomposition cut short by a crash leaves children that wait on siblings never created. Two workers that split such
  tickets again are each checked against the log only, and close a cycle (`DecomposeLimits.TwiceDecomposedCycles`). A
  slash in a subtask's handle makes two plans name the same ids, with the same end (`SlashedHandlesCycle`). Both are runs
  of the whole machine. With plain handles, and a second split only while nothing else is being appended, the graph is
  always acyclic (`GraphGrowth.AlwaysAcyclic`); what a plan must be checked against is the log with every child still
  coming (`GraphGrowth.HeadingIsSafe`, `HeadingIsExact`).
- **The recursion over children ends because the graph is acyclic at creation** (`internal/state/state.go:599-601`). The
  cycle check reads dependencies, not children. A subtask that carries the key its own Goal's first ticket was created
  with adopts the ticket being split, and from then on whatever asks for that Goal's outcome or completeness, as the
  status command does, recurses for ever (`DecomposeLimits.SelfAdoptionHangs`). Replay itself calls neither recursion,
  and a pass calls them on dependencies only. A call returns if and only if the calls it makes, each within the one
  before, never come back to a ticket (`Recursion.ReturnsExactly`). It is not enough to look for a ticket that is its own
  descendant, as a child before it may end the loop (`FailedSiblingReturns`). The methods of `TaskGraph`, `Status`,
  `Checkers` and `Orchestrator` ask for just the calls they make to return.
- **Run's "made no progress" error** (`internal/orchestrator/orchestrator.go:246`) is reached with no failure at all: by
  a ticket waiting on a parked one, by a backoff that runs out between the pass and the check, and by a child that
  depends on its own parent, which the cycle check accepts (`Stalls`). `Liveness.StuckExactly` is the exact condition.
- **Terminal tickets stay terminal, and merge once.** True when a dispatch reads and claims at once
  (`Runs.TerminalForGood`, `MergesAreSound`). The code reads the log, then what is in flight, then launches, then claims.
  A ticket whose first attempt is claimed, proposed and gone between the first two reads is launched again, and that
  claim reopens it even after it merged (`Reopening.MergedIsReopened`), upon which it can be merged a second time
  (`MergedTwice`); a Goal's budget can fail a ticket already launched, with the same end (`FailedIsReopened`). Wherever
  the machine stands, what follows is safe if and only if every ticket launched and not yet claimed waits
  (`SafeExactly`): a launch is safe exactly if its ticket waits on the log as it then is (`LaunchIsSafeExactly`), and an
  append about a launched ticket exactly if the ticket waits after it (`NoteIsSafeExactly`).
- **Worktrees are cut from verified commits** in local mode, but for a crash during the Gate: the candidate is then on
  HEAD and the next process takes it for verified. `LocalBase.CrashIsSafeExactly` is the exact condition.
- **Status conditions are current.** Merging a ticket that another Goal's ticket adopted changes that Goal's conditions,
  and the event is not counted as moving it (`Status.ReplaysDiffer`). `Status.InStepExactly` is the exact condition, and
  only an event about a ticket split off a Goal's own can break it (`FallsBehindBySplit`).

## Left out

- `StateSnapshot` and the session events; the state is always replayed from the first event.
- Best-of-N above one: every attempt of a ticket has the same worker name here.
- The agents, their prompts and the parsing of their output: a worker returns anything, at any charge.
- Git itself: `MergeQueue` takes any merge and any reset, `Scheduler` a commit graph of merges; renames and directory
  conflicts are not in `ThreeWay`. In pull-request mode the branch update is one step, or ends the pass.
- The JSON of events: an encoding is any injective function to bytes without a newline, with its inverse.
- File locks: a transaction of a handle is one step, as the lock makes it.
- The serving, diagnosis, metrics, benchmark and configuration commands, which read the log and decide nothing.
- Worktree directories, heartbeat timers, commit messages and pull-request texts.
- The sanitising of branch names: `Scheduler` names a Goal's branch after the Goal as it is.
- The governors on tickets per Goal and fan-out are modelled as checked, against the log as read; no bound on the totals
  under concurrent splits is claimed.
- Run's pass limit and its sleeps: `Liveness` is about what follows one pass.
- Orchestrator.Scheduler.ReconcileOnce: without the budget step, which `Budget` has, and without the delivery step, which
  `Scheduler` has. It asks of the log it starts on that the calls on every pending ticket return, also on those of a
  cancelled Goal that its first step fails before they are made.
- Orchestrator.Scheduler.DispatchReady: without the budget limits, which `Budget` has.
- Orchestrator.Scheduler.EnforceCancellations: nobody else appends, and no attempt finishes, during the pass; here and in
  the other methods of that class. `Scheduler` has the interleaving.
- Runs.MergesAreSound: at the grain at which a dispatch is one step; at the finer grain `Reopening.MergedTwice` breaks it.
- Runs.CheckersFindNothing: at that grain too, for the same reason.
- Runs.TerminalForGood: at that grain too; the finer one is in `Reopening`.
- Runs.VerdictsForGood: at that grain too.
- Runs.TicketsInOrder: at that grain too.
- LostBranch.DeliversAnotherCommit: one run, for the configurations its row names; that the property fails for others is
  not shown.
- Scheduler: lost workers are restarted one ticket at a time, each on a fresh read, and a restart never concerns a worker
  that is still running, as its heartbeat keeps it from being taken for lost.
- GraphGrowth.HeadingIsExact: assumes that no two children coming share an id, and no key of theirs is another pending
  child's; of two that collide only the first gets on the log, so there the graph headed for may hold edges the log never
  gets. `HeadingIsSafe` needs no such assumption.
- GraphGrowth.AlwaysAcyclic: its two rules are enough; each alone is shown not to be.
- Budget.OvershootIsBounded: for the run's window; the day's window moves at midnight, and what it then lets through is
  not bounded here.
- Plans.BackoffDoubles: a wait is an exact number; the original's does not overflow for the delays it is configured with.
- The text of a crash-loop failure is its reason, without the count the original puts after it.
