# jobsmith, verified

jobsmith plans a request as a small program: a DAG of steps whose arguments may reference the results of
other steps. It interprets that program in parallel waves, and runs it as a durable job that several
processes may share through one store. This project models the parts of it whose correctness is argued in
comments and docstrings, and proves those arguments.

`dafny verify dfyconfig.toml` checks everything.

## What is here

**The program and its interpreter**

| file | contents |
|---|---|
| `Ir.dfy` | argument values, references, derived dependencies, resolution |
| `Sequences.dfy`, `Graphs.dfy`, `Kahn.dfy` | repetition, topological orders, and the repository's three cycle checks |
| `Plans.dfy`, `Planner.dfy` | valid plans, taking steps out of one, and the planner's validation |
| `Executor.dfy`, `Dispatching.dfy` | the wave interpreter: retries, argument failures, routing, the reducers |
| `Sequential.dfy`, `Refinement.dfy`, `WaveRuns.dfy` | a plain evaluator, and the proof that every run of the interpreter computes what it computes |
| `AmendedRuns.dfy` | the same of runs that are stopped and lose steps on the way |
| `Builder.dfy` | the whole graph as a state machine, from entry to its four endings |
| `Depths.dfy` | longest-path depths, columns, and the steps downstream of some others |

A step's outcome is an arbitrary function of its id, the number of the run and its resolved arguments. The
branches of a wave may land in any order.

**The job engine**

| file | contents |
|---|---|
| `Jobs.dfy` | the states of a job |
| `Ownership.dfy` | leases, expiry, and when an owner is gone |
| `Leases.dfy` | the protocol of the processes that share a store: one job's record, lease and cancel request; each store call one atomic step; crashes and the clock included |
| `LeaseRuns.dfy` | all runs: exactly when RUNNING has a lease, when a record read without one is final, what a cancel request, a refused resume, a second lease and a taker's wait come to |
| `Attempts.dfy` | all runs: exactly when the record goes back, and when a canceller covers an ending |
| `Endings.dfy` | all runs: exactly when each attempt ends once; and what a comparison before each write would give |
| `Takeovers.dfy` | exactly when a death held for certain is that of a live run, and each attempt settled once by leases, fences and answers |
| `Renewals.dfy` | an owner that renews in time is not fenced |
| `LeaseRaces.dfy` | interleavings the protocol does not exclude, each shown by a run from the start |
| `Lifecycle.dfy` | one job's record over all sequences of use cases |
| `Delivery.dfy`, `Notices.dfy` | telling a conversation of endings exactly once in its checkpointed thread |
| `Usages.dfy` | tallies, the ledger, and a job's total across attempts |
| `Watch.dfy` | the incremental change watch |

**The report**

| file | contents |
|---|---|
| `Markdown.dfy` | the Markdown writer that takes back a `</li>` it has written |

`Options.dfy` holds the optional value they share. Where the source changes state in place (the writer, the
ledger, the watch, the job record, the loops of the planner and of Kahn's algorithm) so do the classes and
methods here, each proved against a function of its inputs or of the old state; the interleaved protocols are
state machines whose runs are sequences of steps.

## Where the code does less than it says

Openings, watches, takeovers, crashes and the clock interleave at will; nothing is assumed of them. Where a promise
of the source fails, there is a run from the start that shows it, and a theorem that says exactly when it holds.

| promise | where it fails | shown by | exactly when it holds |
|---|---|---|---|
| RUNNING has a lease | a run that ended lets its lease go without looking whose it is (`jobsmith/engine/manager.py:425-428`) | `LeaseRaces.AReleaseCanTakeTheNextLease` | `LeaseRuns.RunningHasALeaseExactlyWhen`, and `LeaseRuns.ExposedComesToIt` for the converse |
| a summary read after a control record without a lease is final | a resume between the two reads (`jobsmith/engine/manager.py:611-619`) | `LeaseRaces.AResumeBetweenTwoReadsIsCondemned` | `LeaseRuns.FinalExactlyUnlessAnnounced` |
| DONE is for good, the attempt never goes down | a summary saved by a process that others have overtaken since it read: a second opener (`jobsmith/engine/manager.py:185-192`, `:242-243`), a canceller (`:573-579`), a taker (`:672-687`) | `LeaseRaces.ASecondOpenerCanCoverDone`, `LeaseRaces.ATombstoneCanTakeTheAttemptBack` | `Attempts.GoesBackExactlyWhenPassed`, `Attempts.DoneIsForGoodExactlyWhen` |
| an owner's ending is never rewritten by a canceller | a canceller that read QUEUED writes its CANCELLED without reading again (`jobsmith/engine/manager.py:569-579`) | `LeaseRaces.ATombstoneCanCoverAnEnding` | `Attempts.ACancellerCoversExactlyWhen` |
| each attempt is settled once | all of these; a refused resume; and takeovers, below | `LeaseRaces.TwoOpenersEndOneAttemptTwice`, `LeaseRaces.ATombstoneCanCoverAnEnding`, `LeaseRaces.ARefusedResumeEndsTwice`, `LeaseRaces.ASlowOwnerIsSettledOver` | `Endings.EndsOnceExactlyUnlessDoomed`, and `Endings.TheDoomedComeToIt` for the converse; two disciplines that give it: `Endings.ComparingSettlesOnce`, `Takeovers.EachAttemptEndsOnce` |
| a death held for certain is one | the lease judged is one a dead taker, or opener, left over a live run (`:644-650`) | `LeaseRaces.ADeadFencerReadsAsADeadOwner` | `Takeovers.NeverHauntedExactlyWhen`, `Takeovers.CertainExactlyWhen`, and `Takeovers.TheHauntedIsCondemned` for the converse |
| a refused job does not run | `_begin_resume` does not look at what `_begin` answers (`:341`) | `LeaseRaces.ARefusedResumeIsDriven` | `LeaseRuns.ARefusedResumeIsDrivenExactlyWhen` |
| an amendment's stop is told to nobody | a launch tool that waits for the job (`jobsmith/adapters/langchain/launch.py:77-80`); another manager's notice (`jobsmith/engine/manager.py:115`) | `Delivery.ALaunchTellsOfAnAmendment`, `Delivery.AnotherManagerTellsOfIt` | `Delivery.AStopIsToldExactlyWhen`, `Delivery.AStopIsReadExactlyBy` |
| every ending is told | a pause told by a launch tool, then cancelled (`jobsmith/adapters/langchain/launch.py:77-80`) | `Delivery.ACancelledPauseIsNeverTold` | `Delivery.WhatIsToldIsTheEnding` |
| an ending nobody waits for is delivered | an amendment that stops the run and is then refused (`jobsmith/engine/manager.py:271-279`) | `Lifecycle.ARefusedAmendmentIsForgotten` | `Lifecycle.EveryLifeIsSound` |
| no version is told again by the watch | a persist of the same process between the reading of a look's rows and the loop over them (`jobsmith/engine/events.py:162-163`) | `Watch.APersistUnderALookIsToldTwice` | `Watch.TheWatchTellsOnceExactlyWhen`, and `Watch.ItComesToRepeat` for the converse |

## Model

| member | source | states |
|---|---|---|
| Ir.DependenciesAreDerived | jobsmith/dag/ir.py:99-104 | a step waits for exactly the steps its arguments reference and those in `after`, each once |
| Ir.ResolveReadsOnlyItsReferences | jobsmith/dag/ir.py:130-157 | resolution reads nothing of the results but the steps the value references: results that hand over the same for those resolve it to the same value, or refuse it for the same reason |
| Ir.ResolvesExactlyWhenItsReferencesDo | jobsmith/dag/ir.py:130-157 | a value resolves if and only if each reference in it, at any depth, can be fetched |
| Ir.FetchStartsAt | jobsmith/dag/ir.py:143-152 | a reference with no path is what its step handed over, when that succeeded, an input's first name is the input, and one to a map's element is never had |
| Ir.FetchGoesOn | jobsmith/dag/ir.py:153-157 | one name further, a reference is had exactly when it names a field of the object the shorter one is, and it is the value of the first such field; where there is none, the missing name is why |
| Ir.ResolvingKeepsTheShape | jobsmith/dag/ir.py:133-142 | a list resolves exactly to a list as long and an object to one with the same keys in order, each element to what it resolves to by itself, a literal to itself |
| Ir.TheFirstReferenceSaysWhy | jobsmith/dag/ir.py:130-157 | where a value does not resolve, the first of its references that names nothing, at any depth, says why |
| Graphs.StuckMeansCyclic | jobsmith/dag/planner.py:167-184 | names that all wait for one another leave no topological order: what Kahn's algorithm does not visit is a cycle |
| Kahn.Visits | jobsmith/dag/planner.py:167-184 | Kahn's algorithm visits as many names as there are steps if and only if a topological order exists, and the order of its visits is then one |
| Kahn.CheckPlanAcyclic | evals/scoring.py:166-190 | the evaluations' check passes if and only if a topological order exists, on unique step names, unknown dependencies ignored |
| Kahn.ProbeCyclic | evals/strict_probe.py:314-326 | the strict probe's set-based check answers cyclic if and only if no topological order exists, so the three checks agree |
| Plans.WithoutSteps | jobsmith/dag/planner.py:32-54 | the loops that take steps out compute the plan with every one of them, and every mention of them in `depends_on`, `after` and the answer's material, removed |
| Plans.WithoutIsTheRest | jobsmith/dag/planner.py:38-53 | what is left is what was there, in order, less the steps that are gone and less what names them in `depends_on`, `after` and the material, and nothing else of it changes |
| Plans.DroppingComposes | jobsmith/dag/planner.py:32-54 | dropping some steps and then others is dropping them all at once |
| Plans.DroppingKeepsValid | jobsmith/dag/planner.py:32-37 | what dropping leaves has unique ids, closed dependencies that cover its references, no cycle, and exactly the ids that were not dropped |
| Plans.RunnableWithout | jobsmith/dag/planner.py:35 | an order the plan can run in, less the dropped steps, is one of what is left: removing nodes adds no edge |
| Planner.Sift | jobsmith/dag/planner.py:125-138 | the first pass keeps and drops exactly the applicable and the inapplicable steps, or names a capability that some step uses and none here offers, or an id that two steps have |
| Planner.CheckDeps | jobsmith/dag/planner.py:146-150 | a step passes if and only if it waits for kept steps only once dropped `after` entries are pruned; otherwise it names one the step waits for, which is dropped or unknown |
| Planner.CheckMaterial | jobsmith/dag/planner.py:153-165 | the answer's material is pruned of dropped steps and accepted if and only if every entry names a whole step of the program |
| Planner.Validate | jobsmith/dag/planner.py:109-195 | of what a planner wrote, and of nothing else, a plan is returned if and only if there are steps, every op is known, no two steps go by one id, what a step that can run comes after is there and what it references can run, the material names whole steps and some order has each step after what it waits for; the plan is the steps that can run, in order, each under its id with its op and arguments, waiting for exactly what it said less what cannot run here; it is valid; each refusal names what is really there, of the first stage that fails |
| Planner.EmptyPlanMeansNothingApplies | jobsmith/dag/planner.py:186-192 | an empty plan comes out only when no step can run here |
| Executor.TurnMakesProgress | jobsmith/dag/executor.py:115-128 | each turn of the dispatch loop finishes a step that was not finished, so the loop ends |
| Executor.ArgumentsExactlyWhen | jobsmith/dag/executor.py:91-107 | a step's arguments are had exactly when each of its references is, at any depth, and its op's model takes what they resolve to; otherwise the first reference that names nothing says why, or the model |
| Executor.FailingFinishes | jobsmith/dag/executor.py:123-128 | failing steps for their arguments finishes them for good and unfinishes nothing |
| Dispatching.Dispatch | jobsmith/dag/executor.py:109-131 | the node's accumulating loop returns an update that, merged, is the dispatched state |
| Dispatching.DispatchFailsTheLeastSet | jobsmith/dag/executor.py:109-131 | dispatch fails exactly the least set of unfinished steps whose arguments cannot be had and whose dependencies are finished or fail too, once each, and changes nothing else |
| Dispatching.TheWaveIsSent | jobsmith/dag/executor.py:145-151 | what `route` sends after dispatch is exactly the steps of the plan that are unfinished with all they wait for finished, each once, to its own capability's node, with what its own arguments resolve to |
| Sequential.EvaluateIsFinal | jobsmith/dag/executor.py:58-106 | running the steps one after the other, each until finished, gives results that satisfy every step's own equation, so they do not depend on the order |
| Refinement.DoneIsFinal | jobsmith/dag/executor.py:69-72 | whatever is finished in a reachable state has the evaluator's result |
| Refinement.ReadyReadsFinal | jobsmith/dag/ir.py:130-157 | a ready step, first run or retry, reads the arguments the evaluator reads: a retry resolves to the same values |
| Refinement.LandingKeepsInv | jobsmith/dag/state.py:167-176 | merging one branch's update, in any state of its wave, keeps the refinement invariant |
| Refinement.OnlyItsOwnKey | jobsmith/dag/capability.py:222-272 | a branch writes its own result key and appends its own id once |
| Refinement.ManyLandings | jobsmith/dag/state.py:167-176 | the branches of a wave, landing in any order, keep it, and each spends one try |
| Refinement.DispatchKeepsInv | jobsmith/dag/executor.py:109-131 | failing steps for their arguments keeps it too |
| WaveRuns.FinishedForGood | jobsmith/dag/executor.py:69-72 | through any run a finished step keeps its result and is not dispatched again |
| WaveRuns.AllDoneIsExact | jobsmith/dag/executor.py:83-87 | the cardinality test of `_all_done` holds if and only if every step is done |
| WaveRuns.NoDeadlock | jobsmith/dag/executor.py:141-143 | while a step is unfinished some step is ready: the empty-ready branch of `route` is never taken |
| WaveRuns.EveryRunRefinesTheEvaluator | jobsmith/dag/executor.py:58-151 | every run of a valid plan, of the waves `route` sends and in any arrival order, makes at most `steps * (max_retries + 1)` waves and at most `max_retries + 1` runs of a step; where it merges it has exactly the sequential evaluator's results and met no unrecoverable error, where it goes to the error the evaluator meets one too, and otherwise the next wave is exactly the steps that may run |
| WaveRuns.EveryPlanFinishes | jobsmith/dag/executor.py:133-151 | every valid plan has a run that ends, wave after wave, in the merge with the evaluator's results or in the error the evaluator meets |
| WaveRuns.ArrivalOrderNeverShows | jobsmith/dag/state.py:167-176 | two runs of one plan with different arrival orders are routed alike and merge the same results |
| WaveRuns.DroppingKeepsTheRun | jobsmith/dag/jobs.py:381-430 | taking steps that have not run out of a running plan leaves a state a run of the amended plan could be in, so the count of `_all_done` stays exact |
| AmendedRuns.AmendedRunsRefineTheAmendedPlan | jobsmith/engine/manager.py:246-279 | a run that is stopped, in the middle of a wave with any of its branches landed, and loses steps that have not run, any number of times along the way, ends as the sequential evaluator of the plan without them does |
| Builder.NextKeeps | jobsmith/dag/builder.py:118-245 | every step of the graph keeps what holds at its node and comes nearer to the end, by the refine budget and the executor's tries together |
| Builder.MergedIsEvaluated | jobsmith/dag/builder.py:219-226 | where the executor leaves for the merge, the results are the evaluator's for every order the plan can run in |
| Builder.EveryRunEnds | jobsmith/dag/builder.py:118-162 | every run reaches the end, after at most `max_refine + 1` generations, with exactly one of the four terminal kinds, each true of the run's channels: an answer has a valid input and draft, no fatal error and the evaluator's results; an error is escalated exactly when some step succeeded; and a plan with no step is never dispatched |
| Builder.DocumentsAreOfDeliveredRuns | jobsmith/dag/builder.py:235-237 | a document is written only by a run that answered or declared it could not |
| Builder.SomethingFollows | jobsmith/dag/builder.py:196-245 | no node is a dead end |
| Builder.RunsAlongTheEdges | jobsmith/dag/builder.py:166-245 | every step of a run goes along an edge of the graph as it is built |
| Builder.AModelMayFail | jobsmith/dag/builder.py:118-156 | at each node that calls a model a run may fail beyond recovery and may go on, and generation may declare that it cannot answer |
| Builder.AChoiceIsOpen | jobsmith/dag/builder.py:118-156 | an input and a draft may each be found valid or not, an invalid input going straight to the user error, and triage may go either way |
| Depths.PlanDepths | jobsmith/dag/state.py:92-117 | relaxation reaches, within as many rounds as there are rows, the longest-path depth of every step of an acyclic plan, whatever order it is listed in |
| Depths.EdgesGoRight | jobsmith/dag/state.py:93-98 | every edge goes to a strictly later column |
| Depths.ListingOrderNeverShows | jobsmith/dag/state.py:100-104 | two listings of the same edges get the same depths |
| Depths.PlanWaves | jobsmith/dag/state.py:120-133 | the grouping loop puts each step in the column of its depth, in plan order |
| Depths.ColumnIsInPlanOrder | jobsmith/dag/state.py:120-133 | a column is what of the plan is at its depth, in the order the plan lists it |
| Depths.WavesPartition | jobsmith/dag/state.py:120-133 | the columns partition the steps, each step in one column once, and no column is empty |
| Depths.DownstreamOf | evals/scoring.py:314-328 | closure by rounds lists, in plan order, exactly the steps a chain of dependencies leads to from the sources, themselves left out |
| Depths.ListedIsInPlanOrder | evals/scoring.py:314-328 | and the order of the list is the plan's |
| Markdown.ListLevel | jobsmith/dag/report_html.py:54-74 | the loop over the indentation computes the level two columns make, a tab advancing to the next boundary |
| Markdown.EachIndentIsOneLevel | jobsmith/dag/report_html.py:59-64 | two spaces are one level more than what follows them, and so is a tab, and a tab after a lone space |
| Markdown.SpacesAreHalfAsManyLevels | jobsmith/dag/report_html.py:62-64 | n spaces before a text are n / 2 levels, rounded down |
| Markdown.OneLevelAtATime | jobsmith/dag/report_html.py:103-108 | an item opens at most one level more than is open, never more than it asks for, and exactly its level when it can |
| Markdown.TakingBackOpensTheItem | jobsmith/dag/report_html.py:137-141 | taking back the last item's `</li>`, whatever was written after it, opens that item and changes nothing else a reader sees |
| Markdown.Writer.OpenList | jobsmith/dag/report_html.py:135-145 | opening a list keeps the stack, the open items and the places of their `<li>` in step with the output, and nests it in an open item |
| Markdown.Writer.CloseDeepest | jobsmith/dag/report_html.py:124-129 | closing the innermost list closes its item first, keeps the rest, and loses no text |
| Markdown.Writer.AddItem | jobsmith/dag/report_html.py:147-159 | an item ends up directly in a list of its kind at the level it asks for, or one below the innermost |
| Markdown.MarkdownToHtml | jobsmith/dag/report_html.py:90-208 | for every document the output reads back balanced, each nested list directly inside an open item, and holds every text once, in order, in the lists and the element it asked for; and each list, item, paragraph, heading, code block and rule starts where the document starts one and nowhere else |
| Markdown.EveryTagIsClosedOnce | jobsmith/dag/report_html.py:106-109 | in a balanced output every tag is closed as often as it is opened: a `</li>` taken back is written again, once |
| Leases.StepIsSound | jobsmith/engine/manager.py:185-687 | with nothing asked of anybody, every step of every process keeps what it means to write sane, and a process that has missed no write of the record holds what the record is: an opener, the record its attempt is opened from; a driver, its own last summary; a canceller or a taker, what it read |
| LeaseRuns.ExposesExactlyWhen | jobsmith/engine/manager.py:224-244 | on any run, a step brings the job within reach of RUNNING without a lease if and only if it lets a lease go while the record reads RUNNING or another process may announce it, or clears a request in front of an opener without a lease |
| LeaseRuns.ExposedComesToIt | jobsmith/engine/manager.py:425-428 | from within that reach at most two steps of one process lead to RUNNING without a lease |
| LeaseRuns.RunningHasALeaseExactlyWhen | jobsmith/engine/manager.py:224-244 | on every run from the start, crashes included and nothing asked of how attempts are opened or watched, RUNNING has a lease, or is not about to lack one, in every state if and only if no step is one of those |
| LeaseRuns.FinalExactlyUnlessAnnounced | jobsmith/engine/manager.py:581-622 | after a control record read without a lease, at the end of a run that took no such step, the job does not read RUNNING before the summary is read if and only if no attempt is announced in between; the canceller then leaves what it reads |
| LeaseRuns.CancelIsNeverLost | jobsmith/engine/manager.py:541-579 | on every run, from a request until a resume clears it: it stands; a process that had not passed its check never announces RUNNING, the resumes past their clear included; one that was not opening a resume never comes to drive; whoever drives never does after its next heartbeat |
| LeaseRuns.ARefusedResumeIsDrivenExactlyWhen | jobsmith/engine/manager.py:337-342 | a resume that has cleared the request, through any run up to its check, drives after being refused if and only if a stop was requested in between and not cleared again; otherwise it is about to announce RUNNING |
| LeaseRuns.TheLaterLeaseWinsExactlyUnlessLetGo | jobsmith/engine/ownership.py:248-275 | when a second opener or a taker writes a lease over one whose owner drives, that owner stops at its next heartbeat, writing nothing, if and only if the last thing done to the lease by then is not that somebody let it go |
| LeaseRuns.AWaitIsHeededExactlyWhen | jobsmith/engine/manager.py:644-658 | a taker that is not certain waits, and through any run of the others leaves the job to its owner if and only if a lease was renewed, written or let go in the meantime; otherwise it comes to settle |
| LeaseRuns.AHeartbeatHearsOrRenews | jobsmith/engine/ownership.py:248-275 | a driver's heartbeat stops it if the lease is another's, ends it CANCELLED if a stop is requested, and otherwise leaves it driving and its lease renewed |
| LeaseRuns.EachRenewalIsRead | jobsmith/engine/ownership.py:248-275 | on every run a process renews its lease at most as often as it has read it |
| Attempts.GoesBackExactlyWhenOvertaken | jobsmith/engine/manager.py:129-149 | on any run on which nothing has gone back yet, a step takes the attempt down or writes over DONE if and only if, since its process last read or saved the record, somebody saved a later attempt than it saves or a DONE it is not |
| Attempts.GoesBackExactlyWhenPassed | jobsmith/engine/manager.py:672-681 | the same from the moment a process looks: through any run of other steps, its save goes back if and only if one of the summaries saved in between is such |
| Attempts.StaleExactlyWhenWrittenSince | jobsmith/engine/manager.py:672-681 | a process that knew the record has missed a write, any steps of others later, if and only if the run saved something in between |
| Attempts.DoneIsForGoodExactlyWhen | jobsmith/engine/manager.py:294-342 | along a whole run the attempt never goes down and DONE is never written over if and only if no process that was so overtaken saves |
| Attempts.ACancellerCoversExactlyWhen | jobsmith/engine/manager.py:569-579 | in every state of every run, a canceller writes its CANCELLED over an ending if and only if the last summary saved since its reading is one |
| Endings.DoomsExactlyWhen | jobsmith/engine/manager.py:224-244 | a step brings it about that a process has only to go on to end again an attempt that has ended, if and only if it ends an attempt another process can still end, or was refused to a resume, or opens or takes up an attempt that has ended, or comes to settle one, or puts the record in flight before a taker that will |
| Endings.EndsOnceExactlyUnlessDoomed | jobsmith/engine/manager.py:624-687 | on every run, whatever the interleaving and every ending counted, a canceller's CANCELLED among them: it never comes to that if and only if no step is one of those; and then each attempt ends once |
| Endings.TheDoomedComeToIt | jobsmith/engine/manager.py:430-443 | and where it has come to that, in whatever place the process is, at most six store calls of that process alone end the attempt again |
| Endings.ComparingSettlesOnce | jobsmith/engine/manager.py:129-149 | were every summary saved only over the record its writer last saw, each attempt would end once, but for one refused to a resume, which may end once more; the attempt would never go down and DONE be for good, however openings overlap, leases are fenced and let go, takers wait or do not, and whoever crashes |
| Takeovers.NeverHauntedExactlyWhen | jobsmith/engine/manager.py:633-640 | along a whole run no live run is ever under no lease, or a dead process's, if and only if no step leaves it so; and then no taker that overwrites the lease it judged settles over a live run without waiting |
| Takeovers.HauntsExactlyWhen | jobsmith/engine/manager.py:624-658 | on any run, a step leaves a live run under no lease or a dead process's if and only if the holder of the lease dies while another drives, a lease is let go while another drives or by a refused resume, or a run is announced under such a lease |
| Takeovers.CertainExactlyWhen | jobsmith/engine/ownership.py:192-203 | a taker that overwrites the lease it judged, while another process drives, holds the death for certain if and only if that lease is gone, or is that of a dead process of its machine whose pid is free |
| Takeovers.TheHauntedIsCondemned | jobsmith/engine/manager.py:713-748 | and where one is, a process that starts up on that machine comes to settle over it without waiting |
| Takeovers.EachAttemptEndsOnce | jobsmith/engine/manager.py:624-687 | on every run of steps that save over nothing unread, fence the lease they judged, wait for an answer, refuse no resume and leave no live run under a lease that misleads, openings, watches and takeovers overlapping at will, the endings come in order, one an attempt, by its owner or one taker or a canceller; the attempt never goes down and DONE is for good; while a taker settles the present attempt nobody drives |
| Renewals.GoneExactlyWhenExpired | jobsmith/engine/ownership.py:179-203 | a lease of a live process is judged gone if and only if it has expired |
| Renewals.NoLiveOwnerIsFencedInTime | jobsmith/engine/ownership.py:55-71 | on every run in which the clock passes the expiry of no lease its owner holds, a live owner's lease is fenced by nobody but a taker that judged another lease than the one it overwrites |
| Renewals.RenewingOwnersKeepTheirJobs | jobsmith/engine/ownership.py:55-71 | and when each call that opens, announces, fences or lets go looks at what it acts on, a live owner's lease is its own and current as long as it drives, and the run is one of those in which each attempt is settled once, with nothing asked of how long a taker waits or who dies |
| LeaseRaces.ReachableByARun | jobsmith/engine/manager.py:185-687 | what the witnesses below call reachable is where some run from the start ends |
| LeaseRaces.AReleaseCanTakeTheNextLease | jobsmith/engine/manager.py:425-428 | a reachable state in which the second attempt reads RUNNING without a lease |
| LeaseRaces.TwoOpenersEndOneAttemptTwice | jobsmith/engine/manager.py:185-192 | a reachable state in which two processes that read QUEUED have each ended the first attempt, DONE and FAILED |
| LeaseRaces.ASecondOpenerCanCoverDone | jobsmith/engine/manager.py:242-243 | a reachable DONE that the next step turns into RUNNING |
| LeaseRaces.ATombstoneCanCoverAnEnding | jobsmith/engine/manager.py:573-579 | a reachable state in which a job that ended FAILED, and one in which a job that ended DONE, reads CANCELLED, the same attempt ended a second time |
| LeaseRaces.ATombstoneCanTakeTheAttemptBack | jobsmith/engine/manager.py:573-579 | a reachable state that reads CANCELLED of the first attempt while the second is driven |
| LeaseRaces.ARefusedResumeIsDriven | jobsmith/engine/manager.py:337-342 | a reachable state in which a resume that was refused drives the job, its record CANCELLED and its lease released |
| LeaseRaces.ARefusedResumeEndsTwice | jobsmith/engine/manager.py:337-342 | and one in which it has then ended its attempt a second time |
| LeaseRaces.AResumeBetweenTwoReadsIsCondemned | jobsmith/engine/manager.py:611-619 | a reachable state in which a canceller that read no lease finds the record RUNNING, and one in which it has settled that attempt over its live driver |
| LeaseRaces.ADeadFencerReadsAsADeadOwner | jobsmith/engine/manager.py:644-650 | a reachable state in which one attempt has two endings, a taker's FAILED and its live owner's DONE |
| LeaseRaces.ASlowOwnerIsSettledOver | jobsmith/engine/manager.py:651-657 | the same after a wait in which the owner did not tick |
| Lifecycle.ConcludingKeeps | jobsmith/engine/manager.py:445-477 | however a run concludes, a failure has a non-empty reason and says whether a resume would take it, a done job has a result, and what is recorded is JSON |
| Lifecycle.ConclusionsAreRecorded | jobsmith/engine/manager.py:445-477 | a run that ends is DONE with its result, or FAILED as declared, without a result or unreadable, according to what it returned |
| Lifecycle.AnEndingIsRecordedAsItWas | jobsmith/engine/manager.py:372-413 | a stopped run is saved as what stopped it: a takeover as an interruption, an exception as raised and with what it said, a question as a pause, a cancel as CANCELLED; a failure with what was left to run |
| Lifecycle.WhatMayFollow | jobsmith/engine/manager.py:185-342 | in each state of a job exactly these use cases are taken and every other refused, a resume with nothing left to run among them |
| Lifecycle.AnEndingIsStampedOnce | jobsmith/engine/manager.py:129-141 | whoever is told of an ending stamps it and nothing else, and it is not stamped again |
| Lifecycle.EveryJobCanStillBeDone | jobsmith/engine/manager.py:294-342 | from every state a job can still come to DONE, as long as something is left to run |
| Lifecycle.PersistingAgainAddsNothing | jobsmith/engine/manager.py:129-141 | saving an ending again stamps nothing more, unless an amendment kept the stamp back the first time |
| Lifecycle.ReopeningForgets | jobsmith/engine/manager.py:326-336 | a resume forgets all of the ending but its attempt: two records are reopened to the same if and only if their attempts are |
| Lifecycle.StepKeeps | jobsmith/engine/manager.py:246-342 | every use case, amendments among them, keeps a record that says why it failed and whether a resume takes it, has its result, is JSON, and is stamped when it must be |
| Lifecycle.EveryLifeIsSound | jobsmith/engine/manager.py:246-342 | over every sequence of use cases, amendments that go through or are refused included: FAILED says why, DONE has a result and stays, a pause is never delivered, an ending nobody waits for is delivered if and only if it was not saved while the job was being amended, and the attempt counts the resumes |
| Lifecycle.ARefusedAmendmentIsForgotten | jobsmith/engine/manager.py:271-279 | a sequence of use cases that ends with a CANCELLED job nobody waits for, not delivered and not being amended |
| Lifecycle.RelaunchesAreBounded | jobsmith/engine/manager.py:759-798 | in one process, however a job is failed, resumed and answered in between, it is relaunched unasked at most as often as its graph says |
| Lifecycle.RelaunchedExactlyWhenTakenOver | jobsmith/engine/manager.py:759-798 | of all that stops a run, only a takeover lets the job be relaunched unasked, and exactly when something was left to run in an attempt its graph still relaunches |
| Lifecycle.RelaunchesReachTheBound | jobsmith/engine/manager.py:759-798 | for every graph a job can be relaunched as often as it says |
| Delivery.CheckpointKeeps | jobsmith/adapters/langchain/delivery.py:38-52 | a checkpoint takes the messages and the record of what they told in one update, and nothing is told that was told before |
| Delivery.ToldAtMostOnce | jobsmith/adapters/langchain/delivery.py:8-21 | in the checkpointed thread each (job, attempt) is told at most once, whatever crashed and whenever, and the record has an attempt exactly when a message told it |
| Delivery.StampedIsTold | jobsmith/adapters/langchain/delivery.py:120-127 | `delivered_at` is never ahead of the thread: a stamped attempt is on the record and was told |
| Delivery.NoEndingIsLost | jobsmith/engine/manager.py:811-821 | wherever a turn dies, an ending no message told of is in the next notice; a turn that reaches its checkpoint tells it once, stamps it and ends |
| Delivery.DoneStays | jobsmith/engine/manager.py:294-325 | through any run a job that is DONE stays so, in the same attempt |
| Delivery.WhatMayFollow | jobsmith/engine/manager.py:246-279 | a run ends in an ending or a pause, only a job that runs nowhere is cancelled in place, and an amendment can be refused exactly while it is under way |
| Delivery.TakenUpItEndsAgain | jobsmith/engine/manager.py:326-342 | a job taken up again runs its next attempt, which can end in any way and is news again |
| Delivery.AmendingIsKnown | jobsmith/engine/manager.py:246-279 | a manager keeps a job's endings from its own notices exactly from when it begins to amend it until it goes on or is refused |
| Delivery.AStopIsToldExactlyWhen | jobsmith/engine/manager.py:246-279 | a telling is of an amendment's stop if and only if the job was read while it was stopped to be amended, and the amendment was not refused after all; and a model's telling only if the notice was another manager's |
| Delivery.AStopIsReadExactlyBy | jobsmith/engine/manager.py:811-821 | while a job is stopped to be amended, and not told of, a notice holds the stop if and only if its manager is not the one amending, and a launch tool that waited for the job always takes it for its ending |
| Delivery.WhatIsToldIsTheEnding | jobsmith/adapters/langchain/launch.py:32-39 | what was told of the present attempt differs from what became of it if and only if a pause was told and then cancelled |
| Delivery.ALaunchTellsOfAnAmendment | jobsmith/adapters/langchain/launch.py:74-80 | a reachable thread in which a launch tool told of an amendment's stop |
| Delivery.AnotherManagerTellsOfIt | jobsmith/engine/manager.py:811-821 | a reachable thread in which another manager's notice told of an amendment's stop |
| Delivery.ACancelledPauseIsNeverTold | jobsmith/adapters/langchain/launch.py:74-80 | a reachable thread in which a cancelled job is stamped delivered and its one message told of its pause |
| Notices.Inject | jobsmith/adapters/langchain/delivery.py:55-75 | notices go in, in their order, right after the leading system messages, so that the request has one system block exactly when it had one, the conversation is untouched and what is said last stays last |
| Usages.PlusAssociates | jobsmith/engine/usage.py:81-97 | adding tallies is associative, the listing of the models included |
| Usages.ZeroIsNeutral | jobsmith/engine/usage.py:67-72 | the empty tally is its zero on both sides |
| Usages.PlusAddsSpends | jobsmith/engine/usage.py:81-97 | tokens, calls, cost and the set of models add up, so addition is commutative up to the order of the models |
| Usages.UsageLedger.Add | jobsmith/engine/usage.py:220-222 | booking adds to its scope and to nothing else, and to what the ledger holds in all |
| Usages.UsageLedger.Total | jobsmith/engine/usage.py:232-237 | the total is everything that was booked, whichever scopes it was booked under |
| Usages.SpentInAnyOrder | jobsmith/engine/usage.py:217-222 | the same calls spend the same in whatever order parallel branches book them |
| Usages.StoredAndReadBack | jobsmith/engine/usage.py:99-120 | a stored tally reads back as it was, and an absent one as nothing |
| Usages.Drive | jobsmith/engine/manager.py:353-362 | after an attempt the record's usage is what it said before plus every call booked by the last persist |
| Usages.SpendIsConserved | jobsmith/engine/manager.py:143-148 | over all attempts a job's usage is the sum of the calls each had booked at its last persist |
| Usages.AllReachExactlyWhen | jobsmith/engine/manager.py:376-413 | every call of an attempt reaches the record if and only if none is booked after its last persist |
| Usages.NothingIsLostExactlyWhen | jobsmith/engine/manager.py:376-413 | over all attempts no call is missing if and only if each attempt persisted after its last call, as one that ends gracefully does; and then a job's usage is the sum of every call of every attempt |
| Usages.PriceKey | jobsmith/engine/usage.py:199-203 | a model is priced by the longest key that starts its name, and by none if and only if no such key but an empty one exists |
| Watch.ALookTells | jobsmith/engine/events.py:107-113 | the loop over the rows read tells exactly those not seen and not older than the subscription, each once; so a version is told again by it if and only if one of them had been told |
| Watch.WatchedEvents.Refresh | jobsmith/engine/events.py:157-165 | the loop over the rows read is that for each of them, the watermark rising with them |
| Watch.ALookAgreesWithAFullReading | jobsmith/engine/events.py:157-165 | from any database, through any commits and any looks, commits in the middle of looks included: after a look that nothing lands in, what is seen is exactly what the store holds, although only rows at or above the watermark were read, the watermark is left at or above every row there is, and what was not seen before is told unless it is older than the subscription |
| Watch.TheWatchTellsOnceExactlyWhen | jobsmith/engine/events.py:66-113 | on every such run the watch is never on its way to tell a version again if and only if this process never persists a job that a look under way has read; and then no version is told twice |
| Watch.ItComesToRepeat | jobsmith/engine/events.py:157-165 | and where it is, at most three steps of the watch, nobody committing, tell a version a second time |
| Watch.APersistUnderALookIsToldTwice | jobsmith/engine/events.py:157-165 | a run from the empty database that tells a version twice |

## Left out

- LangGraph, LangChain, pydantic and the models: what a step or a node comes to is any function of its id, run number and arguments.
- Capabilities that read other results through `results_of`: what they see depends on the timing of waves.
- Malformed plans that the schema refuses, and the parsing of a reference from its text: values come with their references parsed.
- Executor.RouteOf: the plan is always there; `_ready_steps` and `_all_done` without one are not modelled.
- Kahn.CheckPlanAcyclic: on unique step names only; the evaluations check names for duplicates separately.
- Kahn.ProbeCyclic: on unique ids only; the probe reports duplicate ids separately.
- The regular expressions of the Markdown reader and the inline markup: each line comes with its kind, and content is an opaque, escaped, balanced fragment. A paragraph line after an item stays inside the open list, as in the source, so the claim is balance and place, not that every child of a list is an item.
- `DagJob`'s ordered views, the context merger's rendering, the report layout and the drawings.
- Wording and marker checks of the evaluations.
- Leases.StepIsSound: `relaunch_interrupted`'s claim and its release of the lease after a refused resume are not steps of the protocol; a heartbeat's write or a persist already under way when the run is stopped lands before the next step.
- Leases.StepIsSound: two jobs never interact, so there is one; a start-up's batch of orphans is taken job by job.
- LeaseRuns.FinalExactlyUnlessAnnounced: of runs that took no step that leaves RUNNING without a lease; after one, an absent lease says nothing.
- Takeovers.EachAttemptEndsOnce: of runs without the steps it names, a discipline and not a condition of `Endings.EndsOnceExactlyUnlessDoomed`, which asks nothing; that a live owner ticks or stops within a taker's wait is one of them, which `Renewals.RenewingOwnersKeepTheirJobs` replaces by renewals in time.
- Renewals.RenewingOwnersKeepTheirJobs: of runs whose openers, cancellers and takers compare before they write, which the code does not do.
- The store's own atomicity, SQLite and Postgres connections, HTTP, the command line and the terminal: each store call is one atomic step.
- Delivery.NoEndingIsLost: `mark_delivered` reads and writes a whole summary; here it is one step, and a job has one amendment at a time.
- Lifecycle.EveryLifeIsSound: a push or a pull stamps only endings addressed to it, and a job has one amendment at a time.
- Push delivery's retries and the webhook: only that a push stamps the ending it pushed.
- AmendedRuns.AmendedRunsRefineTheAmendedPlan: the check that the steps to drop have not finished and the amendment are one step, and a run that goes on after a stop starts at dispatch.
- Usages.Drive: costs are exact reals, a ledger is never that of another job's run, and a canceller's or a taker's save, which carries the usage it read, is not an event of an attempt.
- Watch.TheWatchTellsOnceExactlyWhen: commits are ordered by `updated_at`, a persist and its local publication are one step, a look once begun goes through what it read, and a queue that overflows is not modelled; nor is the watch by notification.
- Lifecycle.RelaunchesAreBounded: one process; two start-ups that relaunch the same attempt at once are not considered.
