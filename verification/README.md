# A verified model of the stopper protocols

`stopper` is a Go library for structured concurrency: a tree of stoppers counts the
tasks running under each node, stops softly, then hard after a grace period, runs
deferred callbacks and reports errors.  On top of it come concurrent sequence
operators, a concurrency limit, retries and a task tree.  This project models the
protocols as Dafny programs and proves what they guarantee under every interleaving.

## How the model is organised

* `StateNode.dfy` has the critical sections of one `State` as functions, with the
  lifecycle invariant that holds whenever its mutex is free.  `StateObject.dfy` has the
  same sections as methods of a class that updates its fields in place, each proved
  equal to its function, and around them the methods of the package, which take the
  mutex for a section and give it back before they call what the section leads to.
* `StopTree.dfy` is a small-step system over a growing tree of states.  A thread is the
  list of actions it still has to perform; an action is one critical section of one
  node or one return of user code, and a step replaces it by the actions it leads to.
  So `Apply` is not atomic: its fast checks go up to the root, its locked sections come
  down again one by one, work lists run between them, and any other thread may step in
  between.  An increment that is not undone is visible as a pending action, so counts
  can be compared with what the threads hold.  `History` fields record the past; the
  only one that a step consults is the set of timers that may still fire.
* `StopTreeGauges`, `StopTreeLocal`, `StopTreeConclusion`, `StopTreePaths`,
  `StopTreeInvariant`, `StopTreeRuns` build the invariant; `StopTreeTheorems`,
  `StopTreeOrder`, `StopTreeStarts`, `StopTreeTermination`, `StopTreeLiveness`,
  `StopTreePropagation`, `StopTreeCalls`, `StopTreeGrace`, `StopTreeIdleGrace`, `StopTreeWitness` state the results.
* `StopTreeLocks.dfy` adds the mutexes: programs with lock and unlock instructions over a
  table of holders.  It proves the lock discipline and that every run with mutexes is a
  run of `StopTree`, so that the results above hold of it too.  That each section is
  locked on its own and unlocked before its work list is part of how programs are written
  there (the source gets this order from its deferred calls); that the methods keep to it
  is what the `locked` field of `StateObject.State` shows.
* `SeqStopper.dfy` has what the sequence operators use of their nested stopper: its flags,
  the steps of its hard stop and its errors.  It is a small stand-in written after the
  same source; no lemma derives it from `StopTree`.
  `OrderedMap.dfy` is the small-step system of `Map` with its workers, mutex, channels,
  consumer and nested stopper; `OrderedMapOrder`, `OrderedMapLife`, `OrderedMapExtra`,
  `OrderedMapErrors`, `OrderedMapWork`, `OrderedMapProgress`, `OrderedMapIterate` and
  `OrderedMapWitness` prove order, completeness, the extra element and what it carries,
  what workers do, progress and termination, and show concrete runs.
  `Unordered.dfy` and `UnorderedPlaces`, `UnorderedLife`, `UnorderedReport`,
  `UnorderedErrors`, `UnorderedWork`,
  `UnorderedProgress`, `UnorderedWitness` do the same for `MapUnordered` and `ForEach`.
* `Limit.dfy`, `Retry.dfy`, `TaskTree.dfy` and `TaskTreeRender.dfy` model the packages and
  the file of those names.

Integers, time and task counts are unbounded.  A callback answers with an optional
error; a recovered panic is such an error.  Clocks, random jitter, user code and the
scheduler are choices of the environment.  An input iterator is its items and how it
ends: it returns, or it panics.

## Where the code does not do what it says

* `Defer` is documented (`stopper.go:80-94`) to run an accepted callback once the stop
  is over.  A callback accepted after the cancel was taken, while tasks are still
  running, is never run.  `DeferredRunsIffArmed` gives the exact condition and
  `AcceptedButNeverRun` a run.
* Stop hooks are said to run right after the stopping channel is closed
  (`internal/state/state.go:78-83`).  They do if and only if the call is a Stop with a
  positive grace period on a node with running tasks: `HooksFirstIff`.  Otherwise they
  run after the user callbacks and the cancel; `CancelBeforeChild` is such a run.
* `WaitCtx` is documented (`stopper.go:167-169`) to join the error of its argument if the
  argument's Done is closed.  If the stopper is done as well, its select may take the
  stopper's Done and leave that error out.  `ForEach` passes the context that its own
  stopper is derived from; it is sure to report the cancellation exactly until that has
  reached the stopper: `OuterIff`.  `CancelledReturnsNil` is a cancelled `ForEach` that
  has processed nothing and returns nil.
* Backoff delays can shrink with a multiplier above one, but only for negative maximum
  delays: `DelaysNeverShrinkIff`, `NegativeDelaysShrink`.

## When the sequence operators do not return

No documentation promises that the operators return in the following cases, and none says
that they may not.

* `Map`: between lock and unlock a worker can panic, by sending on results that an expired
  grace period has closed or by pulling from an input iterator that panics.  The mutex then
  stays locked and the consumer never returns from its cleanup.  And a loop body that panics
  or calls Goexit skips the early break and leaves a worker at its select with the mutex,
  until a grace period expires or the enclosing context is cancelled.  These are the only
  ways to get stuck: `StuckIff`, `WorkJams`, `EndsUnlessProvoked`.  An undisturbed run
  finishes if and only if the input does not panic: `UndisturbedEndsIff`.
  `GraceExpiryJams`, `InputPanicJams` and `UnwindingAbandons` are runs.
* `MapUnordered` and `ForEach`: their workers hold the mutex only while they pull, so the
  caller fails to get control back if and only if an input that panics has jammed the mutex:
  `UnorderedProgress.ReturnsIff`, `UnorderedProgress.JamIsForever`; a run is
  `UnorderedWitness.InputPanicJams`.  An expired grace period never jams it.  An unwinding
  loop body lets the caller return, but can leave workers waiting to send.

## Model

| member | source | states |
|---|---|---|
| `StateNode.HardStopDisarms` | internal/state/state.go:266-294 | the one-shot hard stop takes the cancel and exactly the callbacks deferred so far, and keeps the lifecycle |
| `StateNode.HardStopOnce` | internal/state/state.go:266-294 | a hard stop that finds the cancel takes it with the given cause and clears timer and deadline; a second one does nothing |
| `StateNode.SoftStopDisarms` | internal/state/state.go:300-328 | a soft stop always leaves the node stopping and without hooks, its work is exactly what it disarmed, and its cause is ErrStopped exactly at count zero |
| `StateNode.SoftStopChoice` | internal/state/state.go:313-349 | a soft stop of an unspent node hard-stops it at once exactly without tasks or without grace, and otherwise runs the timer to the earlier of both deadlines |
| `StateNode.ApplyKeepsLifecycle` | internal/state/state.go:145-173 | the locked section refuses exactly a positive delta on a stopping node, panics exactly below zero, keeps the lifecycle and takes the cancel only at zero with ErrStopped |
| `StateNode.StopOnIdleKeepsLifecycle` | internal/state/state.go:238-248 | StopOnIdle keeps the lifecycle and hard-stops only an idle node |
| `StateNode.BranchesCoincide` | internal/state/state.go:166-172 | the soft and hard branches at the end of Apply do the same once the node is stopping |
| `StateObject.State.constructor` | internal/state/state.go:42-50 | a new state is armed, empty and not stopping |
| `StateObject.State.HardStopLocked` | internal/state/state.go:266-294 | in place, the fields and the work list become those of the specification function |
| `StateObject.State.UpdateGraceTimerLocked` | internal/state/state.go:332-349 | in place, only the timer and its deadline move, and only to an earlier time |
| `StateObject.State.SoftStopLocked` | internal/state/state.go:300-328 | in place, as the specification function |
| `StateObject.State.ApplyLocked` | internal/state/state.go:145-173 | in place, as the specification function, with its refusal and its over-release |
| `StateObject.State.StopOnIdleLocked` | internal/state/state.go:242-247 | in place, as the specification function |
| `StateObject.State.AddDeferredLocked` | internal/state/state.go:67-76 | the callback is kept unless the node is stopping with no tasks |
| `StateObject.State.AddStopHookLocked` | internal/state/state.go:88-100 | the hook is armed unless the node is stopping |
| `StateObject.State.RemoveStopHookLocked` | internal/state/state.go:109-113 | only this child's hook is removed |
| `StateObject.State.AddErrors` | internal/state/state.go:178-194 | exactly the non-nil errors are appended, in order |
| `StateObject.State.CallDeferred` | internal/state/state.go:255-261 | the work list runs backwards and its errors are recorded in running order |
| `StateObject.State.Stop` | internal/state/state.go:229-236 | Stop takes the mutex for its section and calls the work list, last job first, with the mutex free |
| `StateObject.State.StopOnIdle` | internal/state/state.go:238-248 | so does StopOnIdle |
| `StateObject.State.Expire` | internal/state/state.go:341-348 | so does a fired timer |
| `StateObject.State.AddDeferred` | internal/state/state.go:52-76 | the callback is kept, or run at once with the mutex free and its error recorded |
| `StateObject.State.Apply` | internal/state/state.go:119-174 | undisturbed, Apply of any delta is all or nothing along the ancestors: it runs every section under its own mutex alone and calls their work root first with all mutexes free, and fails exactly for zero, or for a positive delta if one of them is stopping |
| `StopTreeGauges.WorkOrder` | internal/state/state.go:255-320 | the work of one call, run backwards, is: callbacks in LIFO order, then the cancel, then the child hooks |
| `StopTreeOrder.HooksFirstIff` | internal/state/state.go:300-320 | among all calls that can stop a node with hooked children, exactly those that propagate run the hooks; they run them first if and only if the call is a Stop with grace on a node with tasks |
| `StopTreeOrder.HookedWork` | internal/state/state.go:255-320 | on every other propagating call all callbacks and the cancel come before the hooks |
| `StopTreeOrder.ReleaseWork` | internal/state/state.go:135-174 | a release that takes the last task of a stopping or stop-on-idle node stops it, and all that work comes before the node below is released |
| `StopTreeWitness.CancelBeforeChild` | internal/state/state.go:306-320 | a reachable state in which a parent's callback and cancel are complete and its hooked child is not yet stopping |
| `StopTreeInvariant.RunKeepsInv` | internal/state/state.go:119-349 | every critical section of every thread keeps the whole invariant of the protocol |
| `StopTreeRuns.StepKeepsInv` | internal/state/state.go:55-349 | so does every step, including calls from user code, new nodes, clock ticks and timers |
| `StopTreeTheorems.TicketConservation` | internal/state/state.go:119-174 | in every interleaving a count is the number of increments not undone, is never below the tasks running in the subtree, equals them once settled, and is never over-released |
| `StopTreeTheorems.CleanCancelSafety` | internal/state/state.go:125-173 | once a node was cancelled with ErrStopped, no task of its subtree runs at any later moment of any run, even with acquires caught between two sections |
| `StopTreeTheorems.LifecycleAlways` | internal/state/state.go:28-39 | the lifecycle invariant holds of every node in every reachable state |
| `StopTreeTheorems.CauseMeansOutstanding` | internal/state/state.go:166-172 | the recorded cause is ErrGracePeriodExpired exactly if the node was still held when its cancel was taken |
| `StopTreeTheorems.DeferredInOrder` | internal/state/state.go:280-293 | what has completed of a hard stop is a prefix of: accepted callbacks in LIFO order, then the cancel; nothing completes before Stopping closes, all has when the cancel is done, and the cancel runs once |
| `StopTreeStarts.StartsInTurn` | internal/state/state.go:280-293 | a callback or cancel that has been started, wherever it is pending, is the next item of that order: Stopping is closed and everything before it has completed |
| `StopTreeTheorems.AcceptedRunsOnce` | internal/state/state.go:255-294 | when no thread has work left, each callback accepted before the hard stop has run exactly once, and the cancel too |
| `StopTreeTheorems.LateNeverRuns` | internal/state/state.go:67-76 | a callback that was not accepted before the hard stop never runs from the list, on any continuation |
| `StopTreeTheorems.DeferredRunsIffArmed` | internal/state/state.go:67-76 | of a callback that AddDeferred accepts: it has run by the end of the node's own cancel if and only if the cancel was not yet taken at the call |
| `StopTreeWitness.AcceptedButNeverRun` | internal/state/state.go:266-270 | a reachable state with all work done in which an accepted callback is left over for ever |
| `StopTreeTheorems.ChildrenReached` | internal/state/state.go:300-315 | in every reachable state a stopping node's child is stopping or work that stops it is pending |
| `StopTreeTheorems.StopPropagation` | internal/state/state.go:88-115 | when all stops are delivered, every descendant of a stopping node is stopping |
| `StopTreePropagation.HooksStopChildren` | internal/state/state.go:306-315 | running a node's hooks leads to exactly one stop of each hooked child, with the grace period of its hook |
| `StopTreePropagation.HooksHoldGrace` | stopper.go:292-293 | in every reachable state each armed or taken hook is a child's, with the grace period that the child was made with |
| `StopTreePropagation.PropagatedStop` | stopper.go:357-372 | so a child with tasks keeps its cancel through a propagated stop exactly if it has a grace period, with a deadline at most that period away |
| `StopTreePropagation.NoTaskIsRushed` | internal/state/state.go:317-349 | in runs where every configured and requested grace is at least g, no node is cut off for an expired grace before g has passed since it was asked to stop |
| `StopTreeCalls.NewCall` | stopper.go:284-295 | a new node is empty and running, and hooked to its parent with its own grace, or stopped if the parent is stopping |
| `StopTreeCalls.CancelDetaches` | stopper.go:265-277 | a cancel that sees how to detach takes the node off its parent's hooks before it cancels the context |
| `StopTreeCalls.AcquireAlone` | internal/state/state.go:119-174 | Call or Go with no other thread moving: the task starts, counted by the node and all its ancestors, if and only if none of them is stopping; otherwise nothing changes |
| `StopTreeCalls.StopCall` | stopper.go:357-372 | Stop makes the node stop with exactly the grace it is given |
| `StopTreeCalls.IdleCall` | internal/state/state.go:238-248 | StopOnIdle stops a node at once exactly if it has no tasks |
| `StopTreeCalls.DeferCall` | internal/state/state.go:55-76 | Defer runs the callback at once exactly if the node is stopping without tasks, and otherwise keeps it last |
| `StopTreeCalls.BodyMeaning` | stopper.go:485-502 | what each mode and handler does with a task's error |
| `StopTreeCalls.FailingTaskStops` | options.go:22-27 | a task that fails under the default handler stops its node: on every continuation with no work left it is stopping and concluded, with the error recorded |
| `StopTreeCalls.CallbackMeaning` | internal/state/state.go:255-261 | a due callback runs, and its error is recorded when it returns; one that was not accepted runs at once |
| `StopTreeCalls.ErrorsAreRecorded` | options.go:24-35 | on every continuation with no work left, each error is recorded that a recording handler received or a callback returned |
| `StopTreeCalls.AddErrorRecords` | stopper.go:317 | and each error that AddError was given |
| `StopTreeTermination.ChildStopIsConfined` | stopper.go:263-297 | a child's stop with all it leads to changes nothing outside the child's subtree except hook registrations |
| `StopTreeTermination.ConfinedStep` | stopper.go:263-297 | the same for one step, in the middle of any interleaving |
| `StopTreeTheorems.NoLostErrors` | stopper.go:403-411 | when a root is done and was stopped cleanly, Wait reports every error its handlers received or an accepted callback returned, as often as received |
| `StopTreeTheorems.WaitReports` | stopper.go:403-411 | whatever the cause, Wait reports exactly the recorded errors, as often as recorded, and an expired grace exactly if that is the cause |
| `StopTreeLocal.ExecOwes` | stopper.go:485-502 | every error an error handler or a callback receives is recorded or still owed by a pending action |
| `StopTreeTheorems.GraceDeadline` | internal/state/state.go:332-348 | before the hard stop the deadline is the minimum of call time plus grace over all soft stops with live tasks; fired timers are due; no hard stop for grace comes earlier |
| `StopTreeTheorems.DeadlineNeverLater` | internal/state/state.go:332-340 | over any run that ends before the hard stop, a deadline once set never moves later and is never dropped |
| `StopTreeTheorems.LateTimerIsSilent` | internal/state/state.go:341-348 | at any time after the hard stop, a timer that goes off changes nothing and leads to nothing |
| `StopTreeGrace.GraceTimerRuns` | internal/state/state.go:332-348 | a stopping node whose cancel is unspent has tasks and a timer running at the earliest deadline asked for, which fires once that is due |
| `StopTreeGrace.ExpiryTakesCancel` | internal/state/state.go:341-348 | the timer of an unspent node takes its cancel with ErrGracePeriodExpired, whatever the count |
| `StopTreeGrace.GraceIsEnforced` | stopper.go:133-136 | from every reachable state in which a stopping node waits for tasks, its hard stop can be completed at the deadline, with all callbacks and the cancel, while no task and no other thread moves |
| `StopTreeGrace.RunnerConcludes` | internal/state/state.go:280-293 | the hard stop is complete as soon as the thread that took the cancel has no work left |
| `StopTreeTermination.CascadesTerminate` | internal/state/state.go:255-328 | with user code making no further calls, no interleaving takes more steps than the state's cost |
| `StopTreeTermination.NeverBlocked` | internal/state/state.go:229-261 | every pending action can be performed whatever the rest of the system has done: none waits for a condition (waiting for mutexes is the next rows' subject) |
| `StopTreeLocks.OneMutex` | internal/state/state.go:29 | no thread ever holds two mutexes, and a thread that holds one does not ask for another |
| `StopTreeLocks.UserCodeHoldsNothing` | internal/state/state.go:252-261 | tasks, callbacks, hooks and cancel functions run with no mutex held |
| `StopTreeLocks.SectionsAreLocked` | internal/state/state.go:145-173 | actions that use a node's fields run under its mutex, and no other action changes a node |
| `StopTreeLocks.FreeActionsReadNothing` | internal/state/state.go:101-108 | actions without the mutex depend on the node at most by its parent and, for the poll of the stopping channel, the stopping flag |
| `StopTreeLocks.WaitsAreShort` | internal/state/state.go:119-174 | there is no wait cycle: a thread can go on, or waits for one mutex whose holder can go on |
| `StopTreeLocks.LocksRefine` | internal/state/state.go:119-349 | every run with mutexes is a run in which critical sections are single steps |
| `StopTreeLocks.LockedStepsEnd` | internal/state/state.go:229-261 | without further calls every step with mutexes decreases a lexicographic measure |
| `StopTreeTermination.Drains` | internal/state/state.go:229-261 | from every state the pending work can be run to its end |
| `StopTreeLiveness.StopConcludes` | stopper.go:138-141 | when tasks end: every run of the threads alone is bounded, and when none can go on, each node asked to stop, by Stop or StopOnIdle, has no tasks and has completed its callbacks and its cancel |
| `StopTreeLiveness.StopConcludesBelow` | stopper.go:263-297 | and so has every node below it |
| `StopTreeIdleGrace.IdleGraceIrrelevant` | internal/state/state.go:238-248 | runs that differ only in the grace periods given to StopOnIdle end in the same counts, flags, causes, errors and callback histories |
| `StopTreeIdleGrace.StepErases` | internal/state/state.go:166-172 | forgetting those grace periods commutes with every single step |
| `OrderedMapOrder.YieldedInOrder` | seq/map.go:82-108 | under every schedule and disturbance the yielded indices strictly increase and each comes with fn(i, items[i]) |
| `OrderedMapOrder.BoundedBuffering` | seq/map.go:57-95 | at most numWorkers + 2 items are pulled and neither yielded nor dropped, and at most numWorkers callbacks run |
| `OrderedMapOrder.StepKeepsOrder` | seq/map.go:63-116 | every step of a worker, the consumer or the environment keeps the order invariant |
| `OrderedMapLife.CompleteWhenUndisturbed` | seq/map.go:370-391 | without cancellation, break, unwinding or expiry, and if some worker was started, the yielded sequence is the sequential map of the whole input |
| `OrderedMapLife.ClosedOnceAfterWorkers` | seq/map.go:57-61 | unless a grace period expires, results is closed once, only after all workers have exited, and nothing is sent afterwards |
| `OrderedMapExtra.ExtraElement` | seq/map.go:386-389 | when the extra element is yielded: exactly if a worker was refused, an error was added, a task failed under a recording handler or the cause is an expired grace; and always after an own expired grace without cancellation |
| `OrderedMapExtra.OutputWhenUndisturbed` | seq/map.go:24-34 | the whole output of an undisturbed run: the sequential map, and an extra element exactly if a worker was refused, an error was added or the input's panic was recorded |
| `OrderedMapErrors.WaitReportsAll` | stopper.go:403-411 | at Wait the extra element is made of exactly the recorded errors and an expired grace, and is absent only if there are none |
| `OrderedMapErrors.ExtraContents` | seq/map.go:386-389 | unless a grace expired, it carries each error as often as it happened, if recorded by the handler; in particular one for each refused worker |
| `OrderedMapErrors.ContentsWhenUndisturbed` | seq/map.go:64-66 | in undisturbed runs these are the refusals, the user's errors and the input's panic |
| `OrderedMapWork.CalledOnce` | seq/map.go:82-108 | the function is called only for enqueued items, never for dropped ones, and at most once for each |
| `OrderedMapErrors.WorkFailsIff` | seq/map.go:66-95 | a worker's task fails exactly at a done context, a send on closed results, or a pull that panics, each with its own error |
| `OrderedMapWork.FailingTaskStops` | options.go:22-35 | under the default handler a failed task stops the nested stopper, and under no other |
| `OrderedMapWork.SpawnIff` | seq/map.go:63-66 | a worker is started exactly if neither the nested stopper nor an ancestor is stopping |
| `OrderedMapWork.NoneStartedLater` | seq/map.go:63-66 | after a stop no further worker is ever started |
| `OrderedMapWork.CancelStopsPulling` | seq/map.go:67-71 | once the context is done only workers already past their check pull, one item each |
| `OrderedMapWork.BreakStopsPulling` | seq/map.go:86-99 | after an early break the workers pull at most one item each and one for each free place in the channel |
| `OrderedMapWork.NothingAfterReturn` | seq/map.go:46-53 | once the operator has returned its stopper is stopping and nothing is pulled again |
| `OrderedMapProgress.WorkJams` | seq/map.go:82-95 | the mutex is jammed exactly by a send on the closed channel, which takes an expired grace period, or by a pull that panics |
| `OrderedMapProgress.NeverStuck` | seq/map.go:73-95 | unless the mutex is jammed or a worker abandoned, in every state that is not final somebody can move; after an early break the holder can leave its select |
| `OrderedMapProgress.StuckIff` | seq/map.go:46-116 | a reachable state in which nobody can move is the end if and only if the mutex is not jammed and no worker abandoned |
| `OrderedMapProgress.EndsUnlessProvoked` | seq/map.go:46-116 | what a caller can rely on, in disturbed runs too: if the input does not panic, the loop body did not unwind and no grace period expired, a state in which nobody can move is the end |
| `OrderedMapProgress.JamIsForever` | seq/map.go:46-50 | with a jammed mutex no continuation ever finishes |
| `OrderedMapProgress.AbandonedIsStuck` | seq/map.go:113-115 | an abandoned worker stays at its select, and the operator unfinished, until a grace period expires or the enclosing context is cancelled |
| `OrderedMapProgress.UndisturbedEndsIff` | seq/map.go:24-34 | when nobody can move in an undisturbed run, the sequential map of the input has been yielded, and the operator has finished if and only if the input does not panic |
| `OrderedMapWitness.GraceExpiryJams` | seq/map.go:58-95 | a reachable run that jams by an expired grace period |
| `OrderedMapWitness.InputPanicJams` | seq/map.go:82-95 | a reachable run that jams by the input's panic, with one worker, no expiry and no interference |
| `OrderedMapWitness.UnwindingAbandons` | seq/map.go:113-115 | a reachable run in which an unwinding loop body abandons a worker |
| `OrderedMapIterate.EveryRunEnds` | seq/map.go:66-116 | whatever the environment does, the number of steps of a run is bounded by a measure of its first state |
| `OrderedMapIterate.Iterate` | seq/map.go:42-117 | under any scheduler, with no outside interference: unless broken off or unwound it yields exactly the sequential map, finishes if and only if the input does not panic, and then adds no extra element; without a panic or unwinding it always finishes |
| `UnorderedPlaces.EachIndexOnce` | seq/map.go:257-283 | every pulled index is in exactly one place, so none is processed twice |
| `UnorderedPlaces.YieldsSubMultiset` | seq/map.go:396-406 | MapUnordered yields a sub-multiset of all results under every schedule and disturbance |
| `UnorderedLife.CompleteWhenUndisturbed` | seq/map.go:396-414 | in an undisturbed run, when Wait has returned, MapUnordered has yielded exactly that multiset, ForEach has recorded exactly the failing items, and fn was called once for each index |
| `UnorderedReport.ReportExactly` | seq/each.go:46-75 | when Wait reports something, in disturbed runs too; the report has the failures of all items, or in cut-short runs the first of them, and the enclosing context's error at most for a cancelled ForEach |
| `UnorderedReport.OuterIff` | stopper.go:403-415 | ForEach waits for its nested stopper or its own context; it may then report its context's error exactly if that is cancelled, and surely does exactly if the cancellation has not reached the nested stopper; always with all errors recorded so far |
| `UnorderedWitness.CancelledReturnsNil` | seq/each.go:75 | a reachable run of a cancelled ForEach that returns nil with nothing processed |
| `UnorderedReport.OutcomeWhenUndisturbed` | seq/each.go:46-75 | in undisturbed runs ForEach returns nil, and MapUnordered adds no extra element, exactly when nothing failed; otherwise ForEach returns exactly the failing items' errors with it |
| `UnorderedErrors.WaitReportsAll` | stopper.go:403-415 | at Wait the report is made of exactly the recorded errors and failures, an expired grace, and for ForEach its context's error |
| `UnorderedErrors.ReportContents` | seq/map.go:408-413 | unless a grace expired or WaitCtx was cut short, it carries each error as often as it happened, if recorded by the handler, and the failures of all items |
| `UnorderedErrors.WorkFailsIff` | seq/map.go:249-283 | a worker's task fails exactly at a done context, a send on closed results, or a pull that panics, each with its own error |
| `UnorderedWork.FailingTaskStops` | options.go:22-35 | under the default handler a failed task stops the nested stopper, and under no other |
| `UnorderedWork.SpawnIff` | seq/map.go:248-250 | a worker is started exactly if neither the nested stopper nor an ancestor is stopping |
| `UnorderedWork.NoneStartedLater` | seq/map.go:248-250 | after a stop no further worker is ever started |
| `UnorderedWork.CancelStopsPulling` | seq/map.go:251-254 | once the context is done only workers already past their check pull, one item each |
| `UnorderedWork.BreakStopsPulling` | seq/map.go:272-282 | after an early break the workers pull at most one item each and one for each free place in the channel |
| `UnorderedWork.NothingAfterReturn` | seq/map.go:231-238 | once the operator has returned its stopper is stopping and nothing is pulled again |
| `UnorderedProgress.StuckIff` | seq/map.go:250-290 | a reachable state in which nobody can move is the end if and only if the mutex is not jammed and no worker abandoned |
| `UnorderedProgress.ReturnsIff` | seq/map.go:228-283 | when nobody can move, the caller has control back if and only if the mutex is not jammed, and only a panicking input at its end jams it |
| `UnorderedProgress.JamIsForever` | seq/each.go:33-40 | with a jammed mutex no continuation ever returns to the caller |
| `UnorderedWitness.InputPanicJams` | seq/each.go:55-60 | a reachable jam of either operator with one worker, no expiry and no interference |
| `UnorderedProgress.UndisturbedEndsIff` | seq/each.go:30-75 | when nobody can move in an undisturbed run, all results are out, and the operator has finished if and only if the input does not panic |
| `UnorderedProgress.EveryRunEnds` | seq/map.go:250-290 | the number of steps of every run is bounded by a measure of its first state |
| `Limit.Limiter.constructor` | limit/limit.go:23-27 | a positive limit gives that many free slots |
| `Limit.Limiter.Setup` | limit/limit.go:29-37 | the fast path takes a slot exactly if one is free |
| `Limit.Limiter.Wake` | limit/limit.go:41-46 | a waiting task takes a slot only while one is free |
| `Limit.Limiter.Refuse` | limit/limit.go:48-54 | a stop gives the waiting task an invoker, with the context's error exactly after a hard stop, and leaves the slots alone |
| `Limit.Limiter.Start` | limit/limit.go:43-46 | a granted task runs in the slot it has |
| `Limit.Limiter.Drop` | limit/limit.go:48-54 | a refused invoker runs nothing, returns what it was made with and frees no slot |
| `Limit.Limiter.Return` | limit/limit.go:44 | a task that returns frees exactly its own slot, and the invoker returns its result |
| `Limit.Limiter.RunningBounded` | limit/limit.go:19-27 | after any sequence of these steps at most limit tasks run |
| `Limit.Limiter.AllFreed` | limit/limit.go:33-34 | when every invoker has returned, no slot is occupied |
| `Limit.HoldersUpdate` | limit/limit.go:31-46 | a change of one task's stage changes the number of slot holders by that task alone |
| `Retry.Invoke` | retry/retry.go:43-71 | the loop around any classifier, with any state, ends at the first attempt that succeeds, is rejected, is handled, or whose wait fails |
| `Retry.EndMeaning` | retry/retry.go:47-69 | the result is nil exactly if that attempt succeeded or its error was handled; otherwise it is the rejection, or the attempt's error with exactly what ended the wait: nothing, ErrStopped or the context's error; and it is unique |
| `Retry.AttemptsMeaning` | retry/backoff.go:37-44 | with Backoff's and Loop's classifiers: at least one and at most max(1, MaxAttempts) attempts; nil exactly if the last one succeeded, otherwise its error |
| `Retry.AttemptsAreEnd` | retry/loop.go:25-36 | those attempts are the general loop's around a classifier that counts |
| `Retry.InvokeBackoff` | retry/backoff.go:31-54 | the loop with Backoff makes exactly these attempts, and its waits are the clamped delays plus jitter |
| `Retry.InvokeLoop` | retry/loop.go:16-37 | the loop with Loop makes exactly these attempts |
| `Retry.BackoffState.Classify` | retry/backoff.go:37-53 | counts retryable failures, stops at the limit, clamps the delay |
| `Retry.Sanitize` | retry/backoff.go:57-69 | each field that is set stays, each that is not gets its documented default |
| `Retry.DelayBounds` | retry/backoff.go:48 | every delay lies within [min(MinDelay, MaxDelay), MaxDelay] |
| `Retry.DelaysMultiply` | retry/backoff.go:47-48 | with a positive minimum below the maximum and a multiplier of at least one, delays start at the minimum and each is the one before times the multiplier, cut off at the maximum |
| `Retry.DelayIsExponential` | retry/backoff.go:47-48 | with a whole multiplier m the k-th delay is the minimum times m to the power k-1, up to the maximum |
| `Retry.TruncateMeaning` | retry/backoff.go:47 | conversion to a duration rounds towards zero |
| `Retry.DefaultAttempts` | retry/loop.go:17-24 | unset limits mean two attempts for Loop and four for Backoff, with every error retried |
| `Retry.DelaysNeverShrinkIff` | retry/backoff.go:47-48 | with a multiplier of at least one, delays never shrink if and only if the configuration is not the negative one described |
| `Retry.NegativeDelaysShrink` | retry/backoff.go:47-48 | a configuration whose delays shrink |
| `Retry.BackoffAndLoopAgree` | retry/loop.go:25-36 | equal limits and predicates give the same attempts and outcome |
| `TaskTree.CompareIsPreorder` | task_info.go:206-228 | sortTasks is antisymmetric and its ties agree in everything shown |
| `TaskTree.CompareTransitive` | task_info.go:206-228 | sortTasks is transitive |
| `TaskTree.StringsAscend` | task_info.go:206-212 | strings are compared in ascending lexicographic order |
| `TaskTree.TasksAscend` | task_info.go:206-237 | tasks are shown by group, then name, then earlier start, then running before succeeded before failed, then message |
| `TaskTree.SortIsCanonical` | task_info.go:72-73 | any two sorted permutations of the tasks agree up to ties |
| `TaskTree.TreeIsCanonical` | task_info.go:52-94 | two sorted enumerations of one snapshot with distinct sibling names render to the same lines |
| `TaskTreeRender.RenderingIsCanonical` | task_info.go:52-94 | whatever renderTaskTree may write for two raw enumerations of such a snapshot is the same |
| `TaskTreeRender.OneLastMarker` | task_info.go:80-93 | among all lines written for a non-empty sibling list exactly one has the last marker at that level, and it opens the final entry |
| `TaskTreeRender.RenderTaskTree` | task_info.go:52-94 | sorting each level and deciding by counting, it writes the tree of some arrangement of the raw snapshot |
| `TaskTreeRender.Assemble` | task_info.go:79-93 | what is written below a group is its tasks' lines and then its children's subtrees, in order |
| `TaskTreeRender.TreeExample` | task_info.go:52-94 | the lines of a small tree, with the indentation under inner and last groups |
| `TaskTreeRender.LineExample` | task_info.go:192-204 | the text of markers and of tasks in each state |

## Left out

- Runtime tracing, caller names, stack capture and the formatting of errors.
- `limit.WithMaxRate`, whose limiter is not part of this model.
- The internals of `context`; an external cancel is a step that calls Stop.
- `taskInvoker`'s composition of middleware, JSON output, `String` methods, signal handling, `linger`, option merging and the `compat` packages: they would only add easy members.
- Panics in a middleware's setup phase, which escape before the release is registered.
- Read locks are taken as exclusive ones. Reads of the stopping flag that a release ignores are not steps.
- A release or an acquire moves a count by one, as all callers in `stopper.go` do; the one-node functions take any delta.
- A timer that was stopped may still fire in the model, at any time from its deadline on.
- Stoppers with more than one `WithDelegate` facade share one node.
- float32 rounding in Backoff: delays are computed over reals and truncated.
- A callback that never returns or calls `runtime.Goexit`; an input iterator that blocks, never ends, or panics when it is stopped early; middleware configured on the nested stopper.
- OrderedMap.Step: the callback starts no further tasks on the nested stopper and returns; a custom error handler is taken to do nothing; the pairwise `Map2` is the same protocol. The channels and the mutex are values of a state machine, not shared objects.
- Unordered.Step: as OrderedMap.Step; the section under the mutex, which has no select here, is one step; `ForEach2` and `MapUnordered2` are the same protocol. The order in which failures and other errors interleave in the joined error is not kept.
- Retry.Invoke: only for worlds in which some attempt ends the loop; the source's loop goes on for ever in the others.
- TaskTreeRender.SortTasks: stands for the library's sort, of which only the contract is used: a sorted permutation.
- StateObject.State.Apply: no other thread interferes, and no more is released than was acquired; interference is the subject of the small-step system, where over-release is proved unreachable.
