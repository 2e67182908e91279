# The ralph-gh conductor, modelled and proved

The conductor drives the tickets of a PRD through sessions, verify, gate and merge, keeps the
integration branch green, reviews it, and merges it. This project models its frontier engine as a
state machine over a GitHub board and a git remote, and proves what every step, every run and every
crash keeps. Around the engine it models the graph logic, the final review, recovery and stopping, the
status comment, and the lexical path guard of a worker session.

`dafny verify dfyconfig.toml` checks the whole project.

## How it is put together

| files | what they hold |
|---|---|
| `Wrappers`, `Text`, `Sorting` | `Option`, splitting and joining strings, a stable sort and lists of numbers |
| `Markers` | the marker lines a session ends with |
| `Board`, `TicketFlow`, `TicketFlowProofs`, `FlowSucceeds`, `FlowEnds`, `TicketGenerator` | labels and pull requests; one ticket flow as a suspended generator; its invariants and bounds; what good answers lead to; how each answer ends it; the generator's own loop |
| `IntegrationCheck`, `CheckEnds`, `CheckGenerator` | the guard and the check of the integration branch, as a state machine; what its answers lead to; the generator's loop |
| `Graph` | cycles, the frontier, halted blockers |
| `Scheduler`, `SchedulerInvariant`, `SchedulerActions`, `Frontier` | the scheduler's state, its actions, its invariant, one pass, a run |
| `FrontierTheorems`, `FrontierMerges`, `FrontierBound`, `FrontierTermination`, `FrontierProgress`, `FrontierPause`, `FrontierStop`, `FrontierComplete`, `FrontierSucceeds`, `FrontierStart`, `FrontierLabels`, `FrontierCorners` | what holds of every run: green merges, labels, cleared merges, bounds, the end of the loop, no deadlock, the pause, what a stop stops, what a return leaves, what a good run integrates, what comes before the first green, the labels that stay, a run that reaches the corner of the unseen merge |
| `FrontierEngine` | the scheduler's loop with its mutable fields, method by method the state machine |
| `Reconcile`, `Recovery`, `Lifetime` | startup reconciliation; what any run leaves for it; run after run, over crashes and a human's merges |
| `FinalReview`, `FinalMeaning`, `UsageLimit`, `RunPhases` | the final stage, and what each of its ends says, waiting for a limit outside the frontier, the phases of a run |
| `Stopping`, `StopMachine`, `StopCalls`, `StopProcesses`, `StopTheorems`, `StopCorners` | stop requests and the process registry, as classes; their statements interleaved with signals, which interrupt the main thread inside them; what that keeps, and the corners |
| `StatusComment`, `Paths` | the capped status comment; folding paths and the write guard |

A flow is a value that `Resume` moves from one yield to the next; what it does to the board and to git
on the way is a list of effects. The scheduler's step is one loop pass: the answers of jobs, stop
requests and every git or forge answer are the pass's input, so a statement about all inputs is one
about all interleavings. Commits are numbers, a worktree is a commit, verify is a predicate on commits.
Methods that loop or assign in the program are methods here, proved equal to the functions the
theorems are about.

## Hypotheses

- Ticket numbers are distinct and positive, the sub-issues and their blockers are fixed for the run, and
  each ticket starts with one state label (or none, if it never opted in).
- Label writes take effect, sessions commit what they write, gate and verify jobs change nothing, and
  git names a new commit with a new number.
- Only the conductor writes the integration branch, and nobody touches ticket pull requests during a
  run; a ticket that starts queued has no open pull request.
- A git or forge call that fails raises `InfraError`; any other exception escapes and ends the run.
- What is read is current: a pull request read after a merge call shows whether that call landed, and the
  comments read show every comment that was written.
- A step of the scheduler is one loop pass. Jobs end between passes; a stop request that comes while a pass
  releases, checks or dispatches is seen as the next answer arrives or at the head of the next pass.
- Signals are handled on the main thread, between two statements, also inside a spawn or another request;
  starting a process succeeds.
- Settings and the status comment's creation ids are well formed: an entry is one line, a created comment
  has a new id, `parallel` is at least one.

## Where a plain claim would be false

- A merge reported as refused that went through, and whose pull request then cannot be read, ends its
  ticket as an infrastructure failure without a note to the guard. `SettledIsGreen` is therefore an
  equivalence: settled means green exactly if no such merge happened since; `UnseenMergeGoesUnchecked`
  shows the case, `UnseenMergeExists` a run that reaches it.
- If every ticket dispatched in a pass fails at its setup, the loop returns even if more are ready.
  `ReturnLeavesNoneReady` gives the exact condition; `EarlyReturnExists` is such a run.
- `_finish` says a closed sub-issue is ignored, but its cascade counts closed queued tickets. The model
  follows the code: `DoneMeaning` gives the exact condition, `ClosedTicketsCascade` a board.
- The locks of the registry and of the stop state are re-entrant, so a signal handler on the main thread
  runs inside whatever that thread was doing. A process can start after the registry closed:
  `StartsAfterClose` says exactly when, `LateStartIsMissed` shows it. A started process can be missed by
  the kill: `EveryProcessIsKilled` names the two starts, exactly; `UntrackedStartIsMissed` shows the other.
- For the same reason a drain can write its result over an immediate stop's (`ResultOfRun`,
  `DrainWritesOver`), and two immediate stops can both kill (`KillsOfRun`, `BothStopsKill`).
- An operator's drain before a break keeps exit code 0, because the first drain reason wins:
  `BrokenCodeOnlyIfFirst`.
- The tickets to resume are read once, before the loop: a ticket parked in review is not taken up again in
  the same run. `OnePlacePerFlow` counts it: one dispatch, plus one for each time it went back to queued.
- A status entry whose write landed without an answer is on the comment until the next post writes over it;
  and the forge's own retry of a create can leave a second, stale comment: `SecondCommentIsARetry`.
- The bounds of the final stage hold per call. A usage limit ends the call, and the next one starts over
  with a full review.
- A sha is accepted with one trailing newline, because the pattern's `$` matches before it; `IsSha` says so.

## Model

| member | source | states |
|---|---|---|
| `Markers.MatchesIffShape` | conductor/markers.py:16 | the left-to-right matcher accepts a line exactly when it is the marker alone, in up to two backticks, in whitespace |
| `Markers.PassMeaning` | conductor/markers.py:38-67 | a session's verdict is PASS exactly when it exited 0, did not time out, hit no usage limit, and its last five non-blank lines hold a whole-line PASS and no whole-line FAIL |
| `Markers.FailMeaning` | conductor/markers.py:42-67 | and FAIL exactly when these lines hold a whole-line FAIL and no whole-line PASS |
| `Markers.OutcomeIffShape` | conductor/markers.py:17 | an outcome marker is accepted exactly alone, or followed by blanks and a reason |
| `Markers.DoneMeaning` | conductor/markers.py:51-71 | a writing session is done exactly when it is healthy and its last five non-blank lines hold a DONE outcome and no BLOCKED one |
| `Markers.BlockedMeaning` | conductor/markers.py:51-71 | and blocked exactly when they hold a BLOCKED outcome and no DONE one |
| `Markers.WindowIsSuffix` | conductor/markers.py:38-39 | text before the last five non-blank lines never matters |
| `Markers.WindowMeaning` | conductor/markers.py:38-39 | a line counts exactly if it holds text and at most five lines with text, itself counted, are left |
| `Text.SplitMeaning` | conductor/markers.py:38-39 | splitting loses nothing but the separators, and makes one piece more than there are of them |
| `TicketFlowProofs.MergesArePinned` | conductor/ticket_flow.py:205-256 | in every run of a flow, whatever its jobs answer, each merge call names a commit that passed verify, was then pushed, and then got a gate PASS, with no writing session in between |
| `TicketFlowProofs.StandingsJustified` | conductor/ticket_flow.py:205-228 | what the log says of a commit (verified, pushed, gated) is backed by positions in the log, in that order |
| `FlowSucceeds.PassComesFromTheGate` | conductor/ticket_flow.py:219-227 | a PASS is recorded only by a gate job that answered PASS, and for the commit pushed before it |
| `FlowSucceeds.GatePassMeaning` | conductor/ticket_flow.py:75-93 | the gate passes on its first session's PASS, or on a second one's if the first was healthy and gave no verdict |
| `FlowSucceeds.GateFailMeaning` | conductor/ticket_flow.py:75-93 | the same for its FAIL: a second session is run only if a healthy first one gave no verdict |
| `TicketFlowProofs.JobsAreBounded` | conductor/ticket_flow.py:200-273 | a flow runs at most 6R+3 jobs with R = `gate_fix_rounds`, whatever they answer |
| `TicketFlowProofs.ResumeMergesOnlyAtGreen` | conductor/ticket_flow.py:228-232 | a merge is attempted only by a flow that was released from its wait for a green branch |
| `TicketFlowProofs.IntegratedOnlyByMerge` | conductor/ticket_flow.py:229-235 | a resumption ends integrated exactly when it saw its merge go through, and then the merge is its first effect |
| `TicketFlowProofs.ResumeCard` | conductor/ticket_flow.py:108-121 | every resumption keeps exactly one state label that fits the pull request, at every instant between two writes |
| `TicketFlowProofs.DriveCard` | conductor/ticket_flow.py:132-161 | so does a whole run of a flow, from the claim (or the resumed pull request) on |
| `FlowSucceeds.SessionDecides` | conductor/ticket_flow.py:194-198 | a writing session ends its ticket blocked exactly if it is healthy and its last lines say BLOCKED and not DONE, goes on to the next verify exactly if they say DONE and not BLOCKED and no call fails, and ends it failed exactly if they say neither or both |
| `FlowSucceeds.LabelSaysHow` | conductor/ticket_flow.py:96-121 | the one state label a flow ends with says how it ended |
| `FlowEnds.HowItEnds` | conductor/ticket_flow.py:132-273 | every resumption of a flow: an exception escapes exactly if the job raised one that is no infrastructure error; the ticket ends integrated, blocked, failed or as an infrastructure failure each under its exact condition on the sessions' text and the calls that fail; otherwise where it goes on |
| `FlowEnds.StopKeepsTheWork` | conductor/ticket_flow.py:108-121 | whatever ends a ticket short of a merge, its last write is the label that says how, and before it the work is pushed unless that push fails; a failed setup pushes nothing |
| `FlowEnds.ClaimMeaning` | conductor/ticket_flow.py:142-174 | a new ticket is claimed first; the branch of its closed pull request is deleted exactly if there is one, it can be read and the deletion goes through |
| `FlowEnds.OnlyAClaimDeletes` | conductor/ticket_flow.py:166-174 | nothing else ever deletes a branch |
| `FlowSucceeds.GoodAnswersIntegrate` | conductor/ticket_flow.py:205-235 | a green verify, a PASS and a green branch integrate the ticket, and the commit merged is the verified worktree's |
| `FlowSucceeds.RefusalAsksForAFix` | conductor/ticket_flow.py:257-268 | a red verify or a gate FAIL fails the ticket exactly when no fix round is left, and otherwise asks for a fix session |
| `FlowSucceeds.RoundsAreGiven` | conductor/ticket_flow.py:202-273 | a flow goes through as many repaired refusals as it has rounds left, red verifies and gate FAILs in any mix, and arrives at its next verify with the last fix's commit |
| `FlowSucceeds.NeededRounds` | conductor/ticket_flow.py:202-273 | a ticket that meets n refusals, red verifies and gate FAILs in any mix, before it passes is integrated exactly if n is at most the rounds left, and otherwise fails at the refusal that has none |
| `FlowSucceeds.RefusedMerge` | conductor/ticket_flow.py:236-247 | a refused merge is the ticket's to repair exactly if the integration branch moved and a merge-fix is left; any other refusal is an infrastructure failure |
| `FlowSucceeds.ConflictIsCleared` | conductor/ticket_flow.py:247-256 | after a merge-fix the new commit is verified, pushed and gated again before the next merge |
| `FlowSucceeds.NeededMergeFixes` | conductor/ticket_flow.py:228-256 | a cleared ticket that meets n conflicts is integrated if n is at most R and fails if n is more, whatever fix rounds it used |
| `TicketGenerator.Stop` | conductor/ticket_flow.py:108-121 | what a stop pushes and labels, for each kind |
| `TicketGenerator.SetUp` | conductor/ticket_flow.py:144-150 | the claim, the discarded branch of a closed pull request and the worktree, as the state machine's first step |
| `TicketGenerator.TakeSession` | conductor/ticket_flow.py:194-198 | a writing session's answer goes on exactly if it reported done; otherwise the flow ends |
| `TicketGenerator.PushAndOpen` | conductor/ticket_flow.py:208-218 | push, head and pull request in order, with the failure of each call |
| `TicketGenerator.TryMerge` | conductor/ticket_flow.py:229-247 | the merge, the re-read, and the three ways a refusal ends or continues |
| `TicketGenerator.AwaitSession` | conductor/ticket_flow.py:249-255 | one writing session of the generator is the state machine's step |
| `TicketGenerator.AwaitVerify` | conductor/ticket_flow.py:206-218 | one verify of the generator is the state machine's step |
| `TicketGenerator.AwaitGate` | conductor/ticket_flow.py:220-227 | one gate of the generator is the state machine's step |
| `TicketGenerator.AwaitMerge` | conductor/ticket_flow.py:228-256 | the wait for green, the merge and the merge-fix of the generator are the state machine's steps |
| `TicketGenerator.IntegrateTicket` | conductor/ticket_flow.py:132-273 | the generator's loop over `rounds`, `merge_rounds`, `gated`, `pr` and `merge_commit` is the state machine resumed answer by answer, for every script of answers |
| `IntegrationCheck.IntegrationGuard.constructor` | conductor/integration_check.py:68-78 | a run starts settled, at the tip, exactly if both branches can be read and git says the tip is an ancestor of the base; otherwise unsettled, with no green commit |
| `IntegrationCheck.StartsGreen` | conductor/integration_check.py:68-78 | the same of the state machine's start |
| `IntegrationCheck.IntegrationGuard.NoteMerge` | conductor/integration_check.py:58-60 | a merge makes a check due and is remembered |
| `IntegrationCheck.IntegrationGuard.NoteGreen` | conductor/integration_check.py:62-65 | a green check names the green commit, clears the due check and the merges |
| `IntegrationCheck.CheckIsSafe` | conductor/integration_check.py:114-185 | whatever the sessions answer and whichever git call fails, the remote tip is unchanged or at a commit that passed verify, and an ok result names exactly the tip, which passed verify |
| `IntegrationCheck.FixSessionsAreBounded` | conductor/integration_check.py:154-165 | at most R fix sessions in one check |
| `IntegrationCheck.CheckJobsAreBounded` | conductor/integration_check.py:132-185 | at most 2R+1 jobs in one check |
| `FlowSucceeds.NeededFixes` | conductor/integration_check.py:148-183 | a red tip that needs n fixes is repaired, at the last fix's commit, if n is at most R, and stays red if n is more |
| `CheckEnds.CheckEndsHow` | conductor/integration_check.py:114-185 | every resumption of a check: when an exception escapes, when it ends green and at which commit, and when red, each as an exact condition on the answer and the calls that fail |
| `CheckEnds.NotDoneEndsRed` | conductor/integration_check.py:165-170 | a fix session that does not say DONE ends the check red, with nothing verified and nothing pushed |
| `CheckEnds.CheckMeaning` | conductor/integration_check.py:132-185 | a whole check ends green at a commit exactly if the tip verified and is that commit, or fewer than R rounds of DONE fixes that did not verify were followed by a DONE fix that left it, verified, was pushed and read; and it pushes a commit exactly if there is such a round, read or not |
| `CheckGenerator.VerifyTip` | conductor/integration_check.py:136-152 | the verify of the pinned tip is the state machine's steps |
| `CheckGenerator.FixRound` | conductor/integration_check.py:154-180 | one fix round (session, verify, push) is the state machine's steps |
| `CheckGenerator.CheckIntegration` | conductor/integration_check.py:114-185 | the generator's loop over the fix rounds is the state machine resumed answer by answer |
| `Graph.CycleSearch.Visit` | conductor/graph.py:26-42 | the recursive search with its shared `done` set returns a cycle of real edges, or leaves its node finished, with every finished node's blockers finished before it |
| `Graph.EdgeMeaning` | conductor/graph.py:17-25 | an edge is a blocker that is one of the tickets, by repository and number |
| `Graph.LastWins` | conductor/graph.py:19-23 | of two tickets with one key the last one listed counts |
| `Graph.FindCycle` | conductor/graph.py:17-42 | the answer is empty exactly when the in-PRD blocker graph is acyclic; otherwise it is a duplicate-free cycle whose consecutive elements, and last to first, are edges |
| `Graph.FrontierMeaning` | conductor/graph.py:45-66 | the frontier is exactly the open queued tickets each of whose blockers is integrated or closed inside the PRD and closed outside it; tickets with the architecture flag after all others, otherwise lower numbers first |
| `Graph.Progress` | conductor/graph.py:45-66 | on an acyclic board with an empty frontier, an open queued ticket waits, through open queued tickets, on an open issue outside the PRD or on an open ticket that is neither queued nor integrated |
| `Graph.HaltedSearch.Reach` | conductor/graph.py:76-88 | the recursive search that shares one `seen` set finds the halted tickets among what it newly saw, closes what it saw, and saw only what is reachable |
| `Graph.HaltedFor` | conductor/graph.py:90-94 | from one ticket, exactly the halted tickets reachable through non-halted ones |
| `Graph.HaltedBlockers` | conductor/graph.py:69-96 | for each queued ticket exactly the halted tickets it depends on, in ascending order; tickets with none are absent |
| `SchedulerActions.ParkCardOk` | conductor/usage_limit.py:84-110 | a parked ticket ends in review with an open pull request, queued without one, untouched if it is unreadable; never failed |
| `SchedulerActions.ParkFlowKeeps` | conductor/scheduler.py:117-134 | parking a flow keeps the scheduler's invariant |
| `SchedulerActions.AdvanceKeeps` | conductor/scheduler.py:66-85 | resuming a flow keeps it, including the wait list, the outstanding jobs and the note of a merge |
| `SchedulerActions.ReadyOk` | conductor/scheduler.py:162-165 | what is ready is distinct, not dispatched yet, and fit to be claimed or resumed |
| `SchedulerInvariant.CheckKeeps` | conductor/scheduler.py:87-107 | resuming, ending or failing the integration check keeps it |
| `Frontier.ReleaseOneKeeps` | conductor/scheduler.py:112-115 | releasing one waiting flow to its merge keeps it |
| `Frontier.DispatchKeeps` | conductor/scheduler.py:136-142 | dispatching a ticket keeps it, and the other picks stay valid |
| `Frontier.DeliverKeeps` | conductor/scheduler.py:178-191 | acting on, parking or dropping a finished job keeps it |
| `Frontier.Run` | conductor/scheduler.py:145-191 | every state of every run satisfies the invariant, also one that an exception ended |
| `FrontierTheorems.SettledIsGreen` | conductor/scheduler.py:96-115 | in every reachable state, if the branch is settled then the tip is the green commit, verified or the untouched baseline, exactly if no merge went through unseen since |
| `FrontierTheorems.MergesLandOnGreen` | conductor/scheduler.py:112-115 | every merge of every run lands on the commit that turned green last, as the first one seen since (an unseen merge excepted) |
| `FrontierTheorems.OneMergePerGreen` | conductor/scheduler.py:79-80 | in every run, between two merges, the first one seen, the branch turned green |
| `FrontierStart.NothingBeforeGreen` | conductor/integration_check.py:68-78 | in every run, before a check first turns the branch green, a ticket is dispatched or a merge lands only if the integration branch's tip was read as an ancestor of the base |
| `FrontierMerges.EveryMergeIsCleared` | conductor/scheduler.py:112-115 | in every run of the frontier, every merge call names a commit that its ticket's flows verified, then pushed, then saw pass the gate, with no writing session of that ticket in between |
| `FrontierMerges.LandedAreCalls` | conductor/scheduler.py:66-85 | the merges in the integration branch's history are exactly the landed merge calls of the flows, in order |
| `FrontierMerges.DispatchDeletes` | conductor/ticket_flow.py:166-174 | a dispatch deletes the ticket's branch exactly if the ticket starts anew, its last pull request can be read and was closed, and the deletion goes through |
| `FrontierTheorems.UnseenMergeGoesUnchecked` | conductor/ticket_flow.py:155-156 | a merge whose reply is lost and whose pull request cannot be re-read leaves the branch settled on an unverified commit, and its ticket an infrastructure failure |
| `FrontierCorners.UnseenMergeExists` | conductor/ticket_flow.py:229-241 | a run of three passes with one resumed ticket that reaches that corner |
| `FrontierTheorems.OnePlacePerFlow` | conductor/scheduler.py:117-191 | at the head of every pass a running ticket waits once or has exactly one job outstanding, the check has one exactly when it runs, at most `parallel` run, and a ticket was dispatched once plus once per requeue |
| `FrontierTheorems.LabelsFit` | conductor/scheduler.py:145-191 | in every state of every run a tracked ticket has exactly one state label, and integrated only on a merged pull request |
| `FrontierLabels.OtherLabelsStay` | conductor/labels.py:1-11 | in every run, the requeues after a stop and the reconciliation after that, no ticket appears or disappears and every label that is not a state label stays |
| `FrontierBound.JobsAreBounded` | conductor/scheduler.py:146-191 | with no usage limit, T tickets and R rounds, at most T(6R+3) + (T+1)(2R+1) jobs end, in any order |
| `FrontierTermination.PassDescends` | conductor/scheduler.py:146-191 | a pass that waits for an outstanding job and goes on strictly lowers what is left of the run |
| `FrontierTermination.FrontierEnds` | conductor/scheduler.py:146-191 | with every outstanding job answered and no usage limit, the loop is over after T(6R+3) + (T+1)(2R+1) + 2 passes |
| `FrontierTermination.RunJobsAreBounded` | conductor/scheduler.py:146-191 | the job bound, for a run from its start |
| `FrontierProgress.NeverStuck` | conductor/scheduler.py:151-169 | a pass that starts with no job outstanding returns, leaves a job outstanding, ends one, ends the limit, or finds the branch broken |
| `FrontierPause.BrokenEnds` | conductor/scheduler.py:152-169 | on a broken branch with no job outstanding, the next pass ends the run |
| `FrontierPause.LimitIsAPause` | conductor/scheduler.py:112-134 | in a pass under a usage limit no flow is advanced, dispatched or merged and no check starts; tickets are only parked, by what their pull request says; the limit ends only with nothing running and `wait_for_reset` |
| `FrontierPause.DryPass` | conductor/scheduler.py:167-177 | when nothing is left to run: returned exactly with no limit, a stop, or a wait that a stop cuts, which is then recorded; exit on the limit exactly if the run is not to wait; the limit lifted exactly after a whole wait |
| `FrontierPause.CutWaitIsFinal` | conductor/scheduler.py:174-177 | a wait cut by a stop ends the run, whatever inputs would follow, with the stop recorded and nothing dispatched |
| `FrontierPause.LimitMeaning` | conductor/usage_limit.py:48-53 | which answers hit a limit, a gate's second session included |
| `FrontierPause.ParkMeaning` | conductor/scheduler.py:117-134 | a parked ticket may be dispatched again by this run exactly if its pull request could be read and is not open |
| `FrontierPause.LimitedAnswerParks` | conductor/scheduler.py:184-190 | the first limited answer, also inside a gate's tuple, never reaches its flow: it puts the limit in force and parks the flow or the check |
| `FrontierStop.DispatchNeedsGreen` | conductor/scheduler.py:160-166 | a pass dispatches only on a settled branch, with no stop, no limit and a slot free, and then exactly the first of what is ready, as many as there are slots |
| `FrontierStop.DispatchExactly` | conductor/scheduler.py:160-166 | and whenever these hold it does dispatch: exactly the first of what is ready, as many as there are slots |
| `FrontierStop.BlockersComeFirst` | conductor/graph.py:45-66 | no ticket is started before each of its blockers is closed, or is a sub-issue that is integrated with its pull request merged |
| `FrontierStop.DrainedPass` | conductor/stopping.py:57-63 | a pass that finds a stop requested dispatches nothing, and the stop stays |
| `FrontierStop.DrainIsFinal` | conductor/scheduler.py:146-166 | and no later pass of the run dispatches anything |
| `FrontierStop.StopEndsTheRun` | conductor/scheduler.py:148-183 | the pass that finds an immediate stop is the last of the run, whatever inputs would follow, and everything is as it was before the stop, or before the answer it was found with |
| `FrontierStop.RequestsCount` | conductor/scheduler.py:148-160 | a request to stop at once found at the head of a pass ends the run there; one to drain stays, and nothing is dispatched any more |
| `FrontierStop.ReturnKnowsTheBranch` | conductor/scheduler.py:158-169 | unless stopped at once or limited, the loop returns, also from a drain, only with the branch known to be good or broken |
| `FrontierStop.ReleasesInTurn` | conductor/scheduler.py:112-115 | merges are attempted in the order the flows came to wait |
| `FrontierPause.ReturnLeavesNoneReady` | conductor/scheduler.py:160-169 | a return with no stop leaves nothing ready exactly if no more was ready in its last pass than `parallel` |
| `FrontierPause.ReturnIsSettled` | conductor/scheduler.py:167-169 | and nothing runs, no check runs or is due, and no limit is in force |
| `FrontierComplete.LeftQueuedIsStuck` | conductor/scheduler.py:160-169 | a run on an acyclic board that returns with nothing ready left an open ticket queued only behind an open external issue or an open ticket that is neither queued nor integrated |
| `FrontierComplete.SetupFailuresEndTheRun` | conductor/scheduler.py:161-169 | if everything dispatched in a pass fails at its setup and nothing else runs, the run returns, however much more was ready |
| `FrontierComplete.EarlyReturnExists` | conductor/scheduler.py:161-169 | a run with two queued tickets and one slot that returns with a ticket still ready |
| `FrontierSucceeds.GoodRunIntegrates` | conductor/scheduler.py:146-191 | with every job answered well, no stop and no limit, the run returns within the bound, and each open ticket that is queued, resumed or integrated at the start ends integrated with its pull request merged, or waits, through open queued tickets, on a blocker beyond the run from the start |
| `FrontierSucceeds.GoodRunIntegratesAll` | conductor/scheduler.py:146-191 | on an acyclic board whose open tickets are all queued, resumed or integrated and whose open blockers are all tickets, every open ticket ends integrated |
| `FrontierEngine.Engine.constructor` | conductor/scheduler.py:53-60 | the loop's variables start as the state machine's first state |
| `FrontierEngine.Engine.Advance` | conductor/scheduler.py:66-85 | `advance` on a flow changes the fields as the state machine says, and no other |
| `FrontierEngine.Engine.ResumeChecker` | conductor/scheduler.py:66-77 | `advance` on the integration check |
| `FrontierEngine.Engine.BeginCheck` | conductor/scheduler.py:96-107 | `start_check`, with an unreadable tip read as red |
| `FrontierEngine.Engine.ReleaseWaiting` | conductor/scheduler.py:112-115 | the loop of `release_waiting` |
| `FrontierEngine.Engine.ParkChecker` | conductor/scheduler.py:123-128 | `park` of the integration check |
| `FrontierEngine.Engine.ParkWaiting` | conductor/scheduler.py:152-157 | the loop that gives every waiting ticket back, over a copy of the list |
| `FrontierEngine.Engine.StartTicket` | conductor/scheduler.py:136-142 | `dispatch` |
| `FrontierEngine.Engine.DispatchReady` | conductor/scheduler.py:160-166 | the guard and the loop of the dispatches |
| `FrontierEngine.Engine.TakeFinished` | conductor/scheduler.py:178-191 | one finished job: dropped after an immediate stop, parked under a limit, else acted on |
| `FrontierEngine.Engine.WorkFrontier` | conductor/scheduler.py:146-199 | the whole loop and its `finally` end in the state machine's state, for every sequence of inputs |
| `FrontierEngine.Engine.RequeueInFlight` | conductor/stopping.py:139-149 | after an immediate stop every abandoned ticket is parked once, in any order |
| `Recovery.StopGivesBack` | conductor/stopping.py:139-149 | an immediate stop, and only that, gives each ticket in flight back by its pull request, fails none, and moves nothing else on the board |
| `Recovery.RunThenReconcile` | conductor/run.py:115-117 | however a run ended, reconciling its board puts every tracked ticket where its pull request says, except those left for a human |
| `Lifetime.LeftRowsOk` | conductor/reconcile.py:1-15 | whatever a run left on the board, and whatever pull requests a human merged or closed since, is a board the next startup can put right |
| `Lifetime.StartsWell` | conductor/run.py:115-121 | after a startup on such a board, labels and pull requests fit, the tickets to resume are in review with an open pull request, and the next run starts as every theorem about a run assumes |
| `Lifetime.EveryRunStartsWell` | conductor/run.py:115-123 | so does every run of a life: run, end or crash, human, startup, run again, any number of times |
| `Lifetime.RecoversAndIntegrates` | conductor/run.py:115-131 | whatever an earlier run did and however it ended, if no open ticket was left for a human then one startup and one good run integrate every open ticket and merge its pull request |
| `Reconcile.ReconcileBoard` | conductor/reconcile.py:27-35 | the loop changes exactly the open tickets an earlier run left behind whose pull request is readable |
| `Reconcile.LeavesAlone` | conductor/reconcile.py:27-35 | only an open ticket that a run left behind and whose pull request is readable is touched |
| `Reconcile.Resumable` | conductor/reconcile.py:53-66 | exactly the open tickets in review with a readable open pull request, in ascending order |
| `Reconcile.SettleLegit` | conductor/reconcile.py:38-50 | from anything a conductor may leave behind, one reconciliation leaves the ticket integrated exactly when its pull request merged, in review exactly when it is open, queued otherwise, and a halted ticket untouched |
| `Reconcile.SettleOnce` | conductor/reconcile.py:38-50 | a second reconciliation changes nothing |
| `Reconcile.CrashRecovery` | conductor/reconcile.py:27-50 | the same after a run that died after any prefix of a ticket flow's writes |
| `FinalReview.WaitForHead` | conductor/head_wait.py:15-26 | true exactly when one of the bounded reads reports the pushed commit, after the pauses before that read |
| `FinalReview.RunFixRound` | conductor/final_fix.py:36-78 | the effects of a fix round, in order, with its early returns and the exception of a worktree that cannot be added |
| `FinalReview.FixRoundMeaning` | conductor/final_fix.py:36-76 | it pushes exactly when everything went well, and only the commit that passed verify right before; limited, blocked and raised exactly by its session and worktree |
| `FinalReview.MergeNeedsProof` | conductor/autonomy.py:20-52 | a merge without a human needs readable labels without a flag and, in the `yolo` mode, a readable, non-empty diff inside a valid, non-empty allowlist; and nothing more |
| `FinalReview.ReviewTwice` | conductor/final.py:80-103 | the review's verdict, with one retry when it is unparsable and no limit was hit |
| `FinalReview.ReviewMeaning` | conductor/final.py:80-103 | the review is a second session exactly if the first hit no limit and said neither PASS nor FAIL; a FAIL is never reviewed again |
| `FinalReview.RunFinal` | conductor/final.py:142-220 | the loop of the final stage is the specification's rounds and close |
| `FinalReview.MergeIsCovered` | conductor/final.py:142-220 | a merge happens exactly when it is justified: the merged commit is the one the last review passed and still the head, later heads are verified and pushed fixes that were reported, and since some full review each review went on from the commit reviewed before to a descendant; at most R+1 reviews and R fix rounds |
| `FinalReview.FirstReviewJudges` | conductor/final.py:157-175 | the first review judges the pull request's head in full, and its verdict is on record |
| `FinalReview.FullReviewIsBelow` | conductor/final.py:160-164 | the commit reviewed in full is an ancestor of every commit reviewed since, the merged one included |
| `FinalMeaning.StageTells` | conductor/final.py:142-220 | every end of the stage says why, by the text of its sessions and the calls that failed, and the reviews on record are what those sessions said |
| `FinalMeaning.MergedWasPassed` | conductor/final.py:142-220 | what is merged: the last review's sessions said PASS, each before it said FAIL and was followed by a fix that said DONE, verified and was pushed, and is what was reviewed next |
| `FinalMeaning.StageScopes` | conductor/gate_scope.py:20-37 | each review covers only the fix diff exactly if the last verdict was kept, it starts at the commit reviewed then, and git reports that an ancestor of this head |
| `FinalReview.ShaShape` | conductor/ports.py:12 | a sha is forty hexadecimal digits, perhaps with a newline |
| `UsageLimit.WaitForReset` | conductor/usage_limit.py:56-65 | the wait completes, after exactly its seconds, exactly if no look for a stop before a slice finds one; a stop cuts it at the slice it is found |
| `UsageLimit.Guard` | conductor/usage_limit.py:68-81 | a step is run again exactly after completed waits, and its limit escapes exactly when waiting is off or cut short |
| `RunPhases.Launch` | conductor/run.py:103-119 | a missing, unreadable or cyclic board is refused before any label is written, and a reconciled one without work after; exactly then |
| `RunPhases.Finish` | conductor/run.py:134-152 | why the frontier is empty, decided in the program's order |
| `RunPhases.FinishMeaning` | conductor/run.py:134-152 | when each reason is given: a board with no open ticket, for one, is never done |
| `RunPhases.DoneMeaning` | conductor/run.py:134-152 | done exactly when the final review can start and no closed ticket cascades |
| `RunPhases.ClosedTicketsCascade` | conductor/run.py:136-143 | a closed queued ticket behind a closed failed one keeps the final stage from starting although its own check would not refuse |
| `RunPhases.FinalStageIsEarned` | conductor/run.py:121-131 | the final stage starts only with no stop requested, nothing running, the branch settled on its green commit, and a start check on the same board that does not refuse |
| `RunPhases.FinalTicketsMerged` | conductor/final.py:46-56 | and then every open ticket has a merged pull request |
| `Stopping.SessionRegistry.Spawn` | conductor/sessions.py:53-60 | a call that no signal interrupts: a process is started and tracked exactly if the registry is not closed |
| `Stopping.SessionRegistry.Release` | conductor/sessions.py:62-64 | a released process is no longer tracked |
| `Stopping.SessionRegistry.KillAll` | conductor/sessions.py:75-89 | the registry closes, then every tracked process gets SIGTERM, then every one SIGKILL |
| `Stopping.StopState.RequestDrain` | conductor/stopping.py:57-63 | a call that no signal interrupts: the first reason wins |
| `Stopping.StopState.RequestImmediate` | conductor/stopping.py:65-73 | a call that no signal interrupts: the flag and the first immediate reason are set, and only the first request kills |
| `Stopping.StopState.Escalate` | conductor/stopping.py:75-82 | a call that no signal interrupts: a first SIGINT drains, the next one stops |
| `Stopping.ThreeSigints` | conductor/stopping.py:75-82 | the first SIGINT drains, the second stops at once, a third changes nothing |
| `Stopping.FirstRequestWins` | conductor/stopping.py:84-87 | after requests that do not interrupt each other, the run's result is the first immediate one if there is one, else the first drain, and none without a request |
| `Stopping.BrokenCodeOnlyIfFirst` | conductor/stopping.py:57-62 | a broken branch sets the exit code only if no drain came before it; an earlier operator drain keeps exit code 0 |
| `StopTheorems.FlagThenKill` | conductor/stopping.py:65-73 | in every interleaving, also of requests that interrupt each other, the immediate flag precedes the close and every signal, and the signals are those of the kills in turn, each all its SIGTERMs and then all its SIGKILLs |
| `StopTheorems.ResultOfRun` | conductor/stopping.py:57-87 | the result of every interleaving is the first immediate request exactly if no drain was past its test when that came in, and otherwise the first drain, which writes over it |
| `StopTheorems.KillsOfRun` | conductor/stopping.py:65-73 | the processes are killed once per immediate request that found the flag unset: at most once exactly if no immediate request came while another was past its test, and not at all exactly if there was none |
| `StopTheorems.StartsAfterClose` | conductor/sessions.py:53-60 | a process starts after the registry closed exactly if its start on the main thread was past the closed check, and had not made the process, when the kill interrupted it |
| `StopTheorems.EveryProcessIsKilled` | conductor/sessions.py:75-89 | once a kill is over, a started process got SIGTERM and then SIGKILL exactly if it was not released before the close and is not the start the kill interrupted, neither before its process nor between process and tracking |
| `StopTheorems.KilledNeverAnswers` | conductor/stopping.py:130-136 | a session a kill was aimed at never returns a result |
| `StopTheorems.NothingStartsAfterStop` | conductor/stopping.py:120-136 | once an immediate stop is requested no session starts, and one that has started never answers |
| `StopCorners.LateStartIsMissed` | conductor/sessions.py:53-60 | a stop handled between the closed check and the start: the process is made after the close and gets no signal |
| `StopCorners.UntrackedStartIsMissed` | conductor/sessions.py:53-60 | a stop handled between the start and the tracking: the process gets no signal |
| `StopCorners.DrainWritesOver` | conductor/stopping.py:57-63 | an immediate stop handled inside a drain, past its test: the processes are killed and the result is the drain's |
| `StopCorners.BothStopsKill` | conductor/stopping.py:65-73 | an immediate stop handled inside another, past its test: both kill, and the result is the outer one's |
| `StatusComment.Trim` | conductor/status_comment.py:60-65 | the loop that deletes the oldest line computes the recursive trim |
| `StatusComment.StatusLine.Post` | conductor/status_comment.py:27-57 | one post, with its fields: reading fails closed, writing fails open |
| `StatusComment.KeepIsLongestSuffix` | conductor/status_comment.py:60-65 | what is kept is the longest suffix of the entries that fits, and at least the newest |
| `StatusComment.KeepIncrementally` | conductor/status_comment.py:48-65 | trimming after every entry gives what trimming once at the end gives |
| `StatusComment.CommentShowsTheTail` | conductor/status_comment.py:18-65 | whatever reads and writes fail, whatever replies are lost and however often the conductor restarts, the last status comment shows the header and the longest suffix of the line that fits |
| `StatusComment.AnsweredStays` | conductor/status_comment.py:48-57 | every entry whose write was answered stays on the line, and only written entries are on it, in the order of the posts |
| `StatusComment.NothingUnanswered` | conductor/status_comment.py:48-57 | if no reply is lost, the line is exactly the written entries |
| `StatusComment.SecondCommentIsARetry` | conductor/gh_forge.py:79-84 | there are two status comments exactly if the write that created it was retried after its first attempt had landed |
| `StatusComment.StatusOfAHistory` | conductor/status_comment.py:18-65 | the three together, for a whole history from a PRD without a status comment |
| `Paths.Absolute` | worker-bundle/hooks/rules.ts:73-81 | the loop over the components is the fold |
| `Paths.AbsoluteIsCanonical` | worker-bundle/hooks/rules.ts:73-81 | the result has no empty, `.` or `..` component |
| `Paths.AbsoluteOnce` | worker-bundle/hooks/rules.ts:73-81 | folding a folded path changes nothing |
| `Paths.FoldLaws` | worker-bundle/hooks/rules.ts:75-79 | the laws that determine the fold: empty and `.` components drop out, a name cancels with a `..` after it, `..` at the root stays there |
| `Paths.AbsoluteMeaning` | worker-bundle/hooks/rules.ts:73-81 | an absolute path is folded by itself, any other one from the working directory on |
| `Paths.InsideIsPrefix` | worker-bundle/hooks/rules.ts:49-52 | on resolved paths the string test holds exactly when the root's components begin the path's |
| `Paths.GitInPath` | worker-bundle/hooks/rules.ts:62-64 | the two string tests for `.git` hold exactly when a component is named `.git` |
| `Paths.CheckWriteMeaning` | worker-bundle/hooks/rules.ts:55-70 | on resolved paths a write is let through exactly inside a root, outside `.git`, without control characters, and off the manifests |
| `Paths.WhyRefused` | worker-bundle/hooks/rules.ts:55-70 | a refusal names the first violated rule |
| `Paths.RequirementsShape` | worker-bundle/hooks/rules.ts:45 | which names the requirements pattern matches |

## Left out

- A resumed ticket whose pull request disappears during the run would be listed twice in `ready` after a requeue; the hypothesis that nobody touches pull requests mid-run excludes it.
- Flows and checks are values held by the engine, not heap objects that the loop shares; the guard is an object. Aliasing between a generator and the loop is not modelled.
- The thread pool, the queue's order and its timeout: any outstanding job may be the next to end, and a pass may see none.
- Worktree directories and their removal, prompts, notes, comments on tickets, verify output and findings text: no decision that is modelled reads them.
- An exception raised by a forge write in the final stage (a comment, a label, the ready mark) ends that stage with the exception; the model has the reads and the worktrees that may fail, not each write.
- Tidying the tickets and the PRD after the final merge, and opening the draft of the final pull request.
- The outcome a session's reason text carries into a comment, and the wording of every reason and status line.
- The regular expressions of the autonomy allowlist are predicates on paths; one that does not compile is None.
- Line breaks are split one character at a time, so a carriage return followed by a line feed gives one more, empty, line than the program's split; empty lines are dropped before anything reads them.
- The STOP file, locking, preflight, settings, the engine adapters, the dashboard, logs and last-run files.
- The shell-command rules of the path guard, and its patch-header reader: best-effort matching.
- A stop request that comes in the middle of a pass: the program looks at the flags again before each release and before it dispatches, so it may stop a little earlier than the model.
- The order of two signals sent to different processes within one phase is the snapshot's; the grace period's length is not modelled.
- UsageLimit.Guard: states the retries over a finite list of the step's answers, because a step that hits the limit for ever is retried for ever.
- FrontierTermination.FrontierEnds: assumes that a pass waits until an outstanding job ends and that no answer is usage limited, because a session that never ends, or a limit that returns after every wait, keeps the loop going for ever.
- StatusComment.CommentShowsTheTail: is about entries without a line break; an entry with one would count as several lines.
- Stopping.SessionRegistry.Spawn: states a call that no signal interrupts; the interrupted ones are in `StopMachine`.
- Stopping.StopState.RequestDrain: states a call that no signal interrupts; the interrupted ones are in `StopMachine`.
- Stopping.StopState.RequestImmediate: states a call that no signal interrupts; the interrupted ones are in `StopMachine`.
- FrontierSucceeds.GoodRunIntegrates: is about runs in which every answer is good; what single bad answers lead to is in `FlowSucceeds`.
- Stopping.StopState.Escalate: states a call that no signal interrupts; in `StopMachine` any request may come at any statement.
