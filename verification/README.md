# A verified model of a robot-evaluation harness

The harness runs a policy on a robot (or a simulator), scene by scene and epoch by epoch, and must deliver a
log whatever fails on the way. These Dafny modules model its control logic and prove what that logic is for.
`dafny verify dfyconfig.toml` checks everything.

Hooks, policies, guards of other packages, sinks, the clock, the operator and the scheduler are inputs: a
*script* says what each of them would do if it were called, and a statement about all scripts covers every
behaviour. Floats are reals (with infinities and NaN where the guards look at them); action vectors have one
length.

| module | what it models |
|---|---|
| `Orchestrator`, `Scoring` | the scenes x epochs loop: hooks, the park bracket, scoring, parallel columns, the log |
| `Rollout` | one trial's control loop: operator, manager, guard, step, transcript |
| `ActionManagers`, `Ensembling`, `GripperSlip` | chunk buffering and replanning, ensembling, smoothing, the slip detector |
| `Guards` | clamps, step limits and their chain |
| `Annotations`, `Rescoring`, `RescoringLaws`, `Text` | the append-only annotation log and re-scoring from it |
| `DeliveredLogs` | the log a run delivers is one that re-scores to itself |
| `Terminal`, `Console`, `Session` | the operator's terminal: line editor, console, footer window with two threads |
| `Parallel`, `EvalSet` | bounded dispatch, the exit stack, sets of evaluations, the sink broadcast |
| `Frames`, `RunFrames`, `Composite`, `PassAtK`, `RenderGate` | frame names and the frame store over a run, the composite video, pass@k, incremental report pages |
| `Basics` | options, counting, concatenation |

## Findings

Four results say exactly where a promise of the code stops. Each has a lemma or contract with the case.

* A cancel can be lost. The log is meant to survive a Ctrl-C and the run to end with it. A trial loses its cancel
  if and only if its rollout is reached and cancelled, the policy's trial-end hook, if offered, does not raise a
  keyboard interrupt, and the sinks' trial-end hook then raises an ordinary exception (`Orchestrator.CancelIsLost`,
  with such a script in `ASinkLosesACancel`). Then no log is written and that exception leaves the run. Every
  other interrupted run raises a keyboard interrupt (`Orchestrator.InterruptsSurvive`).
* Guard order matters when the members' intervals do not meet, and for actions that are not finite. Order is
  irrelevant to finite values if and only if the intervals share a point (`Guards.OrderFreeIffMeet`). Where they
  do, it is irrelevant to an action if and only if the action holds a NaN, or is finite, or no member is a
  limiter, or some infinite value is bounded by no clamp on its side (`Guards.OrderBlindIff`; a clamp and a limiter
  that depend on it are in `ALimiterBeforeAClamp`). A rewound reference keeps actions in bounds and within the
  limits if and only if the pose is within reach of the bounds (`Guards.RunIsSafe`).
* A full render pass upgrades a suppressed-tier page if and only if the log's mtime is above 1000 ns
  (`RenderGate.UpgradesIff`); idleness and the two-render bound need no lower bound on it.
* The slip detector's tracking bound is tight: any error above half the threshold admits a history that fires
  (`GripperSlip.TrackingBoundIsTight`).

## Model

| member | source | states |
|---|---|---|
| Orchestrator.RunEval | src/inspect_robots/eval.py:896-1377 | for all hook outcomes: the calls are exactly those of the first trials begun, in order, and each was begun because nothing before it ended the run; no rollout starts unless its own checks and home passed and every earlier armed trial was parked successfully; an armed trial is parked exactly once on every exit path without a keyboard interrupt, never after one; the run leaves without a log if and only if a call was deadly: a keyboard interrupt of a check, home, park or policy hook, anything a sink's trial hook or the grading hook raises, a plain exception or an interrupt of the rollout, a stop signal or an interrupt of observing or scoring; otherwise every planned trial was begun unless a check, home, park or rollout stopped the run or too many policies failed; the log's status, counts and columns are those of the calls made, and what is raised after it was offered is the interrupt of that hook, else the recorded cancel, else the first recorded halt, else the hook's own failure |
| Orchestrator.EveryTrialIsRecorded | src/inspect_robots/eval.py:1118-1132 | unless some call's reply ends the run or too many policies failed, the run delivers a log that records every planned trial: an ordinary scorer failure, for one, drops none |
| Orchestrator.InterruptsSurvive | src/inspect_robots/eval.py:1220-1225 | an interrupted run always raises, and raises a keyboard interrupt if and only if its last trial does not lose its cancel |
| Orchestrator.CancelIsLost | src/inspect_robots/eval.py:1220-1225 | a trial is interrupted and something else leaves the run if and only if its script cancels the rollout and a sink's trial-end hook raises an ordinary exception that no interrupt of the policy's hook forestalls |
| Orchestrator.RunTrial | src/inspect_robots/eval.py:943-1257 | one trial makes exactly the calls its script asks for, keeps the bracket, the aligned columns and the counts, and, unless it escapes, records a row if and only if the rollout left a record; it escapes if and only if a call was deadly, with the exception of that call or a stop signal of the park after it; the run stops after it if and only if a check, home, park or rollout says so or too many policies failed; what it escapes with after an interrupt is no keyboard interrupt if and only if its script loses the cancel |
| Orchestrator.BracketExtends | src/inspect_robots/eval.py:943-1257 | appending a well-shaped trial to a bracketed trace at rest keeps every park and every rollout guarded |
| Orchestrator.BeforeTrial | src/inspect_robots/eval.py:1410-1480 | home is called only after every offered check passed, and nothing after a check that did not; a trial that may not start is in a parked shape, and its halt is reported if and only if a stop signal was raised |
| Orchestrator.CheckPlatform | src/inspect_robots/eval.py:1433-1468 | the readiness checks are called in their order, up to the first that does not pass |
| Orchestrator.HomeRobot | src/inspect_robots/eval.py:1469-1480 | a platform whose home failed is parked once unless it was interrupted; the halt reported is the first of home's and the park's |
| Orchestrator.ParkRobot | src/inspect_robots/eval.py:1524-1533 | park is called if offered; an ordinary failure is reported, a stop signal returned as the halt, an interrupt escapes |
| Orchestrator.LeaveParked | src/inspect_robots/eval.py:1508-1521 | a trial whose exception leaves the run is parked first; only a stop signal of park replaces that exception |
| Orchestrator.Roll | src/inspect_robots/eval.py:982-1033 | what each way a rollout can end does to the counters, the statuses and the record; only an exception that is neither a policy failure, a fault nor a cancel leaves the run, parked unless it is an interrupt |
| Orchestrator.StageJoins | src/inspect_robots/eval.py:957-1246 | a stage of an open trial that escapes leaves the trial parked exactly once unless it was interrupted |
| Orchestrator.GradeTrial | src/inspect_robots/eval.py:1049-1095 | with a grading hook, unjudged and unadopted trials are observed parked, no others are, and every one is graded; a grading exception leaves the run, parked unless it is an interrupt; the record is as the hook left it, and an ungraded trial is counted |
| Orchestrator.ScoreTrial | src/inspect_robots/eval.py:1096-1139 | the scorers are called in order, but for rubrics another rubric's verdict leaves out, up to the first stop signal or interrupt; every rubric gets its own entry, abstains for another rubric's verdict, or is missing when its scorer raised, which only degrades the statuses; abstentions are tallied |
| Orchestrator.Capture | src/inspect_robots/eval.py:1035-1225 | an unsuccessful trial is never scored or judged; verdict, source and note are those of the moment of scoring, the other columns those the policy's end hook left; one row is added to every column |
| Orchestrator.EndHooks | src/inspect_robots/eval.py:1148-1225 | the policy's end hook is called if offered and its start hook did not fail, then the sinks' in any case; the first only degrades the run unless it is interrupted; whatever the second raises leaves the run, parked unless it was cancelled or interrupted |
| Orchestrator.AlignedPush | src/inspect_robots/eval.py:1202-1219 | the twelve columns stay parallel to the recorded rows |
| Orchestrator.ParkAfter | src/inspect_robots/eval.py:1227-1257 | park after every trial but a cancelled one; a failed park stops the run and is remembered if it was a stop signal; the error threshold is checked after every trial |
| Orchestrator.TrialLedgers | src/inspect_robots/eval.py:1035-1257 | trial counts, errors, abstentions and scored rollouts agree with the trace after every trial |
| Orchestrator.ReduceScene | src/inspect_robots/eval.py:1259-1276 | exactly the rubrics that were scored and cannot be reduced are dropped, and the status leaves success if there is one |
| Orchestrator.RunScene | src/inspect_robots/eval.py:920-1302 | a scene's sample holds its first trials in order, its status is what its calls and its reductions leave, and the scene ends early only if the run could not go on; the run's status never returns to success |
| Orchestrator.Finish | src/inspect_robots/eval.py:1304-1377 | the log accounts for the run; it is offered first, then an interrupt of that hook, the recorded cancel, the first recorded halt, or the hook's failure is raised, in that order of rank |
| Scoring.JudgedRubric | src/inspect_robots/eval.py:1488-1505 | a verdict is unscoped if and only if there is none or fewer than two rubrics read judgements; else it is for the rubric the hint names if that one reads judgements, and for the first one that does if not |
| Rollout.Run | src/inspect_robots/rollout.py:433-740 | over any trial: feedback exactly once, and the queued messages are exactly what the polls said, in order and with their sources, while the console worked; transcript projections equal to the store and the policy calls, steps aligned with observations, requests and reviews, frames stored once at increasing steps, requests are the indexed actions of the latest chunk, chunk accounts balanced, a blending manager's buffer is the whole history's, step events are the steps'; a trial that ended did so for the first reason that came up, with the operator's verdict or the policy's terminal as given; a trial that failed did so with the first hook that failed, blamed on that hook's component, and every hook before it passed |
| Rollout.EnsembleIsLossless | src/inspect_robots/action_manager.py:415-426 | over a whole trial the ensemble's buffer is all chunks the policy returned, filtered to those that cover the latest query, oldest first |
| Rollout.AskTellsAll | src/inspect_robots/rollout.py:501-509 | a call told the untold approvals and messages has, with all calls before, been told every one of them once, in order |
| Rollout.TurnAnswers | src/inspect_robots/rollout.py:501-552 | after any call of any built-in manager, what the policy was told is exactly what was made before the last call |
| Rollout.TurnAccounts | src/inspect_robots/rollout.py:543-554 | the replans beyond the seen mark are those of this call, and a new inference appears if and only if the policy was asked |
| Rollout.NotedTranscribes | src/inspect_robots/rollout.py:543-554 | a call that returned is one inference event, and its replan, if any, one replan event |
| Rollout.PlayedAsk | src/inspect_robots/action_manager.py:287-303 | asking again does not change which chunk and index earlier requests came from |
| Rollout.PollOperator | src/inspect_robots/rollout.py:480-525 | the messages of one poll are recorded and queued once each, in order, with their sources; a raising poll turns the console off for the rest of the trial; an interrupt cancels; an end request is reported if and only if the poll made one |
| Rollout.OperatorSettles | src/inspect_robots/rollout.py:511-525 | an operator's end request ends the trial without another step, with its verdict recorded |
| Rollout.AskManager | src/inspect_robots/rollout.py:527-575 | a call that raises, gives nothing or ends without declaring it fails the trial with what the policy or the first trigger that spoke raised, or the policy's error, and leaves no transcript but that; a returned one keeps every account |
| ActionManagers.TurnFails | src/inspect_robots/action_manager.py:271-433 | a call of a built-in manager fails only when the policy raises or returns nothing, or, before any call of the policy, when the first trigger that is not quiet raises |
| Rollout.EmptyChunkEnds | src/inspect_robots/rollout.py:570-575 | a declared terminal chunk without actions ends the trial without a step |
| Rollout.Review | src/inspect_robots/rollout.py:600-671 | a changed action is one approval and one event; a raising guard is blamed for a safety abort, a malformed rewrite is one, and only well-formed reviewed actions go on |
| Rollout.ReviewKeeps | src/inspect_robots/rollout.py:610-648 | an approval made at a step is not counted as told before the next call |
| Rollout.StepEmbodiment | src/inspect_robots/rollout.py:673-723 | the embodiment's end wins over the policy's; its fault is blamed on it and recorded once, last; an exception of the sinks or of the frame store passes through, an interrupt of theirs cancels the trial |
| Rollout.WalkKeeps | src/inspect_robots/rollout.py:682-723 | one step keeps steps, frames and observations aligned |
| Rollout.PolicyEndSettles | src/inspect_robots/rollout.py:241-246 | the policy's end is the last event, at the step it was asked for, with the observation an unstepped trial stopped on |
| Rollout.FeedsOnce | src/inspect_robots/rollout.py:501-552 | a call that was shown everything untold keeps feedback exactly once and the two marks exact |
| Rollout.FailSettles | src/inspect_robots/rollout.py:276-287 | the first failure is one error event, the last, and the only one |
| ActionManagers.ActionManager.NextAction | src/inspect_robots/action_manager.py:271-433 | a call of a built-in manager changes the shared store and the policy's calls as its specification says |
| ActionManagers.NextKeeps | src/inspect_robots/action_manager.py:260-303 | the played action is at index t - start of the latest chunk; at most one policy call a step; a fired trigger is followed by a call; recorded lengths equal played + buffered + dropped; chunks are cut by triggers only |
| ActionManagers.ManagersFeed | src/inspect_robots/action_manager.py:271-433 | every built-in manager, however smoothed, shows the policy what it was shown, records a useful call once and touches nothing else of the store |
| ActionManagers.BaseKeeps | src/inspect_robots/action_manager.py:330-341 | smoothing leaves the accounts, the index and the terminal of the manager below alone |
| ActionManagers.OneClampOneReplan | src/inspect_robots/action_manager.py:123-133 | two unreachable-target replans cite different clamps |
| ActionManagers.TerminalRidesLast | src/inspect_robots/action_manager.py:91-95 | a chunk's terminal is on the last action played of it and on no other |
| ActionManagers.FirstClamp | src/inspect_robots/action_manager.py:123-133 | a step is found if and only if some bounds clamp was made since the chunk began |
| Ensembling.EvictionIsLossless | src/inspect_robots/action_manager.py:415-426 | the buffer is the whole history filtered to the chunks that cover the step, oldest first, and holds the newest |
| Ensembling.WeightsAreWeights | src/inspect_robots/action_manager.py:428-431 | the weights are positive, sum to one and never grow towards newer chunks |
| Ensembling.BlendOverHistory | src/inspect_robots/action_manager.py:415-433 | the blend lies in the hull of all the history predicts for the step |
| Ensembling.SmoothedInHull | src/inspect_robots/action_manager.py:330-341 | the smoothed stream lies in the hull of the raw actions so far |
| GripperSlip.Trigger.ShouldReplan | src/inspect_robots/action_manager.py:179-237 | one call of the trigger is one step of its specification; without a reading nothing changes |
| GripperSlip.TriggerIsDrawdown | src/inspect_robots/action_manager.py:179-237 | on every history the trigger fires exactly when the lag is more than the threshold below its peak since the baseline or the last firing |
| GripperSlip.TrackingNeverFires | src/inspect_robots/action_manager.py:220-237 | tracking within half the threshold never fires |
| GripperSlip.TrackingBoundIsTight | src/inspect_robots/action_manager.py:220-237 | any larger error admits a history that fires |
| Guards.Store.Review | src/inspect_robots/guard.py:306-326 | a review clips to the guard's interval or aborts, and only an absolute limit moves the reference |
| Guards.Store.RewindReference | src/inspect_robots/guard.py:289-304 | an existing reference becomes the executed pose; a non-finite pose is refused |
| Guards.Store.ReviewChain | src/inspect_robots/guard.py:399-426 | all members measure against the reference the last chain review left, which becomes the chain's output; every change is traced |
| Guards.ChainIsProjection | src/inspect_robots/guard.py:399-426 | a chain review is one clip of every dimension to the intersection of all members' intervals |
| Guards.OrderFreeIffMeet | src/inspect_robots/guard.py:399-426 | the order of the members is irrelevant to finite values if and only if their intervals share a point |
| Guards.OrderBlindIff | src/inspect_robots/guard.py:306-426 | where the intervals meet, every order of the members approves the same values or refuses alike if and only if the action holds a NaN, is finite, meets no limiter, or has an infinite value no clamp bounds |
| Guards.ChangesConnect | src/inspect_robots/guard.py:408-421 | the traced changes lead from the proposed action to the approved one without a gap |
| Guards.ReviewIsSafe | src/inspect_robots/guard.py:117-426 | whatever is proposed, the approved action is in bounds and within every limit of the reference if and only if the bounds and the limits around the reference share a point |
| Guards.RunIsSafe | src/inspect_robots/guard.py:289-426 | over any run of proposals and rewinds, every executed action is in bounds and within every limit of its reference if and only if every pose the reference is rewound to, and then measured from, is within reach of the bounds |
| Guards.ExecutedAreSafe | src/inspect_robots/guard.py:117-426 | without rewinds every executed action is in bounds and within every limit of its predecessor |
| Annotations.CurrentIsLookup | src/inspect_robots/annotation.py:234-262 | scoped supersession answers as a last-write map does |
| Annotations.LiveIsLast | src/inspect_robots/annotation.py:248-258 | what is retired was never the last of its trial, kind and rubric |
| Annotations.EditKeepsWell | src/inspect_robots/cli.py:3205-3219 | an edit with a fresh id keeps the log well edited |
| Annotations.EditsAreWrites | src/inspect_robots/cli.py:3205-3219 | any sequence of edits reads as writes to the map, in order |
| Annotations.CurrentAfterEdits | src/inspect_robots/annotation.py:234-262 | after any edits the last one for that trial, kind and rubric counts, else the last general one |
| Annotations.EditReaches | src/inspect_robots/annotation.py:242-262 | an edit is the answer for its trial and kind, for its own rubric or, when it names none, for every rubric without an annotation of its own, and changes no other answer |
| Rescoring.LiftAnnotations | src/inspect_robots/annotation.py:116-191 | the lifted annotations are, trial by trial, the captured verdict, note and grading error |
| Rescoring.RescoreTrial | src/inspect_robots/analyzer.py:110-121 | a trial's entries are re-scored only for rubrics a saved log can rebuild, and a name is reported exactly when its value changed |
| Rescoring.RescoreSample | src/inspect_robots/analyzer.py:101-140 | a scene is returned unchanged if no score changed; a failing reducer drops the reduction |
| Rescoring.Remeasure | src/inspect_robots/analyzer.py:165-175 | metrics and abstention counts are recomputed for the changed rubrics only |
| Rescoring.Rescore | src/inspect_robots/analyzer.py:143-177 | the loops compute the specified re-scored log |
| Rescoring.AnnotatedLog.CmdEdit | src/inspect_robots/cli.py:3178-3223 | an edit appends one annotation, scoped to the judged rubric when none is named, superseding only within its rubric; an unknown trial is refused |
| RescoringLaws.UneditedIsIdentity | src/inspect_robots/analyzer.py:143-177 | re-scoring a log as the evaluation writes it, from its own lifted annotations, returns it unchanged |
| DeliveredLogs.DeliveredRescoresToItself | src/inspect_robots/analyzer.py:143-177 | whatever happened in a run, the log it delivers re-scores to itself, as long as the operator scorer answered from the record and the policy's end hook left the scoring metadata alone |
| DeliveredLogs.TrialIsLogged | src/inspect_robots/eval.py:1096-1219 | a recorded row is saved as the trial re-scoring expects |
| RescoringLaws.TrialRescoresToItself | src/inspect_robots/scorer.py:291-332 | the operator scorer computes from a trial's lifted annotations what it computed from the record |
| RescoringLaws.CurrentOfLifted | src/inspect_robots/annotation.py:116-262 | what counts for a trial is decided by its own lifted annotations |
| RescoringLaws.LiftedIsWellEdited | src/inspect_robots/annotation.py:116-191 | lifted annotations have distinct ids and retire nothing |
| RescoringLaws.RunIdInjective | src/inspect_robots/annotation.py:150-188 | run ids tell trials and kinds apart |
| RescoringLaws.EditedScores | src/inspect_robots/analyzer.py:110-121 | after any edits every re-scored value is the map's, and the others stay as stored |
| RescoringLaws.RescoreIdempotent | src/inspect_robots/analyzer.py:143-177 | re-scoring twice is re-scoring once |
| RescoringLaws.RescoreFrame | src/inspect_robots/analyzer.py:143-177 | results of rubrics that did not change, and all raw data, stay as stored |
| Terminal.LineEditor.Feed | src/inspect_robots/session.py:172-202 | feeding a chunk is the editor's fold over its bytes |
| Terminal.LineEditor.DeleteLast | src/inspect_robots/session.py:204-208 | a backspace removes the continuation bytes at the end and the byte before them |
| Terminal.FoldConcat | src/inspect_robots/session.py:172-202 | where the input is cut into chunks does not matter |
| Terminal.SequencesAreErased | src/inspect_robots/session.py:141-145 | a complete escape sequence leaves no trace |
| Terminal.BackspaceUndoes | src/inspect_robots/session.py:204-208 | a backspace undoes one typed character of any length |
| Terminal.EndsWithin | src/inspect_robots/session.py:147-155 | end requests, counting a pending one, never outnumber the ESC bytes |
| Console.OperatorConsole.Poll | src/inspect_robots/console.py:121-149 | a poll reports the messages of all complete lines in order and their first end request, keeps the unfinished rest, and latches the end of input |
| Console.OperatorConsole.BeginTrial | src/inspect_robots/console.py:151-161 | everything pending is dropped, and an end of input latched |
| Console.SplitIsUnique | src/inspect_robots/console.py:136-137 | a text is cut into lines in only one way |
| Console.SplitContinues | src/inspect_robots/console.py:135-137 | cutting is incremental, so the lines do not depend on the reads |
| Console.ParsedConcat | src/inspect_robots/console.py:138-144 | polls of consecutive lines report what one poll of all of them would |
| Console.NothingIsSwallowed | src/inspect_robots/console.py:75-97 | every line is a message, an end request, both, or a reason to show the usage; a plain message is the line itself |
| Console.CommandRoundTrip | src/inspect_robots/console.py:83-94 | a command and its note are read back from the line they make, in any letter case |
| Session.OperatorSession.PumpInput | src/inspect_robots/session.py:323-351 | one pump is one transition of the window |
| Session.OperatorSession.Poll | src/inspect_robots/session.py:592-599 | a poll pumps and then reports exactly the queued lines |
| Session.OperatorSession.EnterFooter | src/inspect_robots/session.py:388-395 | entering throws away what was typed before and resets the editor |
| Session.OperatorSession.BeginTrial | src/inspect_robots/session.py:635-641 | beginning drops the lines queued since entering |
| Session.OperatorSession.EndTrial | src/inspect_robots/session.py:468-479 | nothing of a window outlives it but the console's end of input |
| Session.Linearises | src/inspect_robots/session.py:306-351 | for every chunking and interleaving, lines handed over plus lines queued are, in order and once each, what the editor makes of the bytes and of the grace periods that ran out |
| Session.WindowLosesNothing | src/inspect_robots/session.py:306-430 | over a whole window, dropped + parsed + queued lines are the window's history, and end requests never outnumber ESC bytes |
| Session.ChunkingIsInvisible | src/inspect_robots/session.py:306-351 | two runs with one history hand over and queue the same lines |
| Session.PlainRunIsFold | src/inspect_robots/session.py:323-343 | without a grace period running out the lines are the fold over the bytes read |
| Session.LoneEscapeEnds | src/inspect_robots/session.py:345-351 | a lone ESC ends the trial at the first quiet poll after its grace |
| Parallel.RunParallel | src/inspect_robots/_parallel.py:70-93 | in any completion order: never more than the limit in flight, tasks submitted once each in input order, none after an observed failure, all drained at the end; success if and only if all succeed, with results in input order |
| Parallel.CollectBatch | src/inspect_robots/_parallel.py:83-87 | a batch is observed whole unless one of it failed, whose exception is then raised |
| Parallel.Admit | src/inspect_robots/_parallel.py:88-92 | as many are admitted as were completed, and the run cannot stall with work left |
| Parallel.HaltPreservingExitStack.Exit | src/inspect_robots/_parallel.py:20-55 | every callback runs once, in reverse order, and what leaves is decided by the exceptions in that order |
| Parallel.LeavesMeans | src/inspect_robots/_parallel.py:28-55 | what leaves is the first stop signal, or without one the last exception |
| Parallel.StopSurvives | src/inspect_robots/_parallel.py:38-54 | an active stop signal is never replaced |
| EvalSet.RunTaskInWorker | src/inspect_robots/eval.py:1729-1777 | a worker closes what it opened, once, in reverse order, on every path |
| EvalSet.StopsReachTheCaller | src/inspect_robots/eval.py:1735-1763 | a stop signal of an evaluation leaves its worker unchanged, whatever the cleanup raises |
| EvalSet.OnlyStopsEscape | src/inspect_robots/eval.py:1762-1777 | only a stop signal or a rejected preflight escapes a worker |
| EvalSet.EvalSetParallel | src/inspect_robots/eval.py:1779-1784 | on a normal return one log per evaluation, in order, each the one it gives alone |
| EvalSet.EvalSetSequential | src/inspect_robots/eval.py:1786-1839 | one log per evaluation, in order; the first stop signal ends the set and nothing runs after it |
| EvalSet.WorkersChangeNothing | src/inspect_robots/eval.py:1729-1839 | when every task's components open and close cleanly, a parallel set that returns has the reply of the sequential set of the same evaluations |
| EvalSet.FanOutEvalEnd | src/inspect_robots/eval.py:453-490 | critical sinks first; every sink is offered the final log unless the record is lost and it would discard its own; the first loss is what is raised |
| EvalSet.SnapshotOutlivesLoss | src/inspect_robots/eval.py:456-476 | a sink that discards its snapshot is offered the hook if and only if no critical sink before it lost the log, and, unless it is critical itself, no critical sink at all |
| Frames.ParseIsInverse | src/inspect_robots/frames.py:39-51 | a name parses to a frame if and only if it is that frame's name |
| Frames.MatchIsAssemble | src/inspect_robots/frames.py:22-43 | the name pattern matches in one way only |
| Frames.UnquoteEncode | src/inspect_robots/frames.py:26-31 | decoding undoes encoding, even after case folding |
| Frames.FormatRoundTrip | src/inspect_robots/frames.py:34-46 | a zero-padded step number is read back, negative ones too |
| Frames.NamesStayDistinct | src/inspect_robots/frames.py:34-36 | names of different frames differ on a filesystem that ignores case |
| Frames.TrialIdInjective | src/inspect_robots/rollout.py:435-435 | a scene and an epoch are read back from their trial id, whatever the scene is called |
| Frames.NoFrameIsLost | src/inspect_robots/frames.py:87-92 | puts with different scenes, epochs, steps or cameras never overwrite one another |
| Frames.FrameStore.StoreObservation | src/inspect_robots/rollout.py:367-374 | the frames of one observation are written camera by camera, each under its own frame's name |
| RunFrames.StoreRun | src/inspect_robots/task.py:118-125 | with distinct scene ids the directory of a run holds every frame of every rollout under its own name, and nothing else |
| RunFrames.RunDistinct | src/inspect_robots/task.py:118-125 | distinct scene ids, one write per step and distinct cameras give every frame of a run its own place |
| Composite.Compose | src/inspect_robots/_video.py:412-444 | the generator yields a picture before it can fail; the timeline is increasing and exactly the steps with a usable frame; every picture is the expected one; it fails if and only if some entry errs or changes shape |
| Composite.EncodeComposite | src/inspect_robots/_video.py:381-450 | a video is made if and only if no probe fails, some stream survives, no entry is bad and the encoder succeeds |
| Composite.BadIsLate | src/inspect_robots/_video.py:388-392 | what fails in a probed stream fails after its first usable frame |
| Composite.LatestAdvances | src/inspect_robots/_video.py:415-432 | between neighbouring steps a tile changes only to the frame at the new step |
| Composite.LatestMeans | src/inspect_robots/_video.py:414-432 | a tile shows the latest usable frame at or before a step |
| Composite.OneSize | src/inspect_robots/_video.py:408-444 | all pictures have one size, and no tile is too high for it |
| Composite.TakeStep | src/inspect_robots/_video.py:417-432 | one step takes every usable frame into its stream's tile and leaves the others |
| PassAtK.EstimateIsShare | src/inspect_robots/scorer.py:138-152 | the estimator is the share of k-element draws of the epochs that hold a success |
| PassAtK.SubsetsCount | src/inspect_robots/scorer.py:148-149 | the binomials count the draws |
| PassAtK.EstimateBounds | src/inspect_robots/scorer.py:143-150 | it lies in [0, 1] and is 1 if and only if fewer than k epochs failed |
| PassAtK.EstimateAtOne | src/inspect_robots/scorer.py:143-150 | at k = 1 it is the success rate |
| PassAtK.MonotoneInSuccesses | src/inspect_robots/scorer.py:143-150 | more successes never lower it |
| PassAtK.MonotoneInDraws | src/inspect_robots/scorer.py:143-150 | a larger k never lowers it |
| PassAtK.ReducedIsShare | src/inspect_robots/scorer.py:186-196 | a scene's score is that share over the epochs that voted; abstention and the two errors arise exactly as described |
| PassAtK.AbstentionsDoNotCount | src/inspect_robots/scorer.py:189-196 | adding or removing abstentions changes nothing |
| RenderGate.Report.Render | src/inspect_robots/cli.py:2570-2619 | one pass renders if and only if the gate says so, and stamps what it rendered |
| RenderGate.AtMostTwoRenders | src/inspect_robots/cli.py:2570-2619 | over any ordinary passes on an unchanged log at most two renders happen |
| RenderGate.NoDowngrade | src/inspect_robots/cli.py:2579-2588 | a suppressed pass never touches a full-tier page, and a pass of a page's own tier is idle |
| RenderGate.FullStays | src/inspect_robots/cli.py:2579-2619 | once full, a page is never written again |
| RenderGate.UpgradesIff | src/inspect_robots/cli.py:2579-2588 | a full pass always leaves a full-tier page if and only if the log's mtime is above the slack |
| RenderGate.IdleIff | src/inspect_robots/cli.py:185-191 | a pass of a page's own tier is idle if and only if the filesystem rounded off no more than the slack |

## Left out

- Orchestrator: writing the action side-car and the record directory, and emitting warnings, are taken not to raise.
- Orchestrator: a keyboard interrupt between two hooks, or inside a reducer, is not modelled; one raised by a hook is.
- Orchestrator: what the policy's end hook makes of a record is a function of the record; sinks do not change it.
- Orchestrator: latencies, step totals and metric means are not part of the log modelled here.
- Orchestrator.BeforeTrial: a report of the wrong type and a failed report are one outcome, a refusal; message texts are not modelled.
- Rollout.Run: every observation is taken to carry images; texts, wall times, live streaming of the policy transcript and its collection at the end are not modelled.
- Rollout.Run: the warning paths of the operator's input hooks are not modelled beyond turning the console off.
- ActionManagers: the last and the executed action, which only the slip trigger reads, are not in the store; that trigger is modelled on its own readings in `GripperSlip`, and in the manager any trigger but the unreachable-target one is a scripted answer.
- ActionManagers.ActionManager.NextAction: how predictions are blended and actions mixed is a parameter; `Ensembling` models both on reals.
- Guards: rounding is not modelled; third-party guards, nested chains, and displacement limits whose box does not meet the symmetric limit are excluded.
- Ensembling: `exp(-m)` is any real in (0, 1]; vectors have one length.
- Rescoring: scorers of other packages that re-score from annotations in logs without recorded rubrics; the text of the annotation that marks a rubric as not judged.
- Rescoring: reading and writing the annotations file as JSON lines.
- Terminal: decoding UTF-8 is a parameter that introduces no line feed and no ESC; echoing and painting of rows.
- Session: a pump or poll whose read or write raises ends the trial's operator input and is not modelled; attached inputs and the plain mode without a footer, beyond the console itself, are not modelled.
- Console: lower-casing and stripping of characters outside ASCII follow the table in `Text`.
- Parallel.RunParallel: an interrupt of the dispatching thread while it waits is not modelled.
- EvalSet: argument validation, registry lookups and what an error log says besides its exception.
- EvalSet.FanOutEvalEnd: only the final hook is modelled; other hooks differ from it by not skipping sinks.
- Frames: which bytes are valid UTF-8 is a parameter; the interpreter's limit on the digits of an integer is not modelled.
- Composite.Compose: a stream whose steps repeat is excluded; pixels are named by the file they came from, and what ffmpeg does is one yes or no.
- RunFrames: a frame whose write raised, which ends its trial, is not in the record.
- PassAtK: rounding of the quotient.
- RenderGate: live logs that are rendered on every pass, page names, the index page and concurrent writers.
- HTML, HTTP, model calls, ffmpeg, git, configuration, plugin discovery and the setup wizard are outside the model.
