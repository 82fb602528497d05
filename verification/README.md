# NamiSync: a verified model

NamiSync keeps a target directory tree in step with a source tree. It scans both sides, plans a list
of operations, selects the safe part, judges it once more just before the run, executes it with
retries, pauses and cancellation, and records what happened. This project models that pipeline in
Dafny and proves what it promises, over every input, every run and every interleaving of steps.

How things are modelled:

- A path is a sequence of names. A name keeps its text, its folded text (entry identity) and its
  composed form together; the folding and normalization tables stay uninterpreted.
- Ids and digests are injective: an operation id is the operation's intent, a content digest is the
  content, a payload hash is an arbitrary token.
- The target volume is a map from places (planned paths, a run's trash, owned temporaries) to
  directories and file objects with bytes, times and attributes. The attribute word is split into the
  three bits the executor writes and the others, which a new file gets from the volume. Each file system primitive may fail
  before or after it takes effect, at every call; `rename`, `publish` and `hardlink` never replace,
  `replace` is atomic, and nothing else writes. A ghost history keeps every state, so "at every step"
  means in every element of that history; ghost counters of failures and of unflushed evidence let
  contracts say what a single failure or a crash can cost.
- Pause, cancel and stop requests, retry decisions, partial writes, reader results and timeouts are
  nondeterministic choices.
- Threads are modelled as atomic steps in any order: one step for each block that holds a lock.

The files, in reading order:

| files | part |
|---|---|
| `Paths`, `Model`, `Order`, `Scans` | paths and keys, operations, sorting, scan results and options |
| `Volume`, `Effects`, `Steps`, `Progress`, `Safety`, `Sharing`, `Executor`, `Run` | the executor: primitives, the states an operation passes through, run-wide safety, files with several paths, attempts and retries, whole calls and chains of calls |
| `Planner`, `PlanBuilder`, `Mirror`, `Convergence`, `ContentStage`, `CleanupStage`, `MirrorTheorem`, `Constructible`, `CleanupSound`, `Filters`, `Decisions` | the planner as a function, its loops, the meaning of a plan, and what is proved about it: for clean scans, for filtered ones, and decision by decision for all |
| `Selection`, `Quarantine`, `Preflight`, `Foresight`, `Clearance` | safe-subset selection, the quarantine frame, the judge, what a passed judgement is worth to the executor, and what it takes to be let through |
| `Refinement`, `Replan`, `Pipeline`, `Workflow` | the executor as a refinement of the planner's meaning, planning again after a run, plans as execution sets, and the workflow from scans to a finished run |
| `Lifecycle`, `EventBus`, `Audit`, `Sessions`, `Endings`, `Scheduling`, `Custody` | event streams, the audit pump, session lifecycle and how sessions end, scheduling and resource custody |
| `Ledger`, `Recorder`, `Testimony`, `Verifier` | the recorded inventory and correspondence, recording commands, what the ledger says afterwards, integrity runs |

The strongest single statement is `Workflow.MirrorOnce`: planning, selecting, judging and executing an
unblocked plan on a volume that looks as scanned, with faults and retries anywhere, ends in the mirror
whenever the session reports no failure. `Workflow.Synchronize` is its companion for runs that are
refused, fail, pause or stop: nothing is lost and everything in doubt keeps its entry and its bytes. `Run.Execution.Execute`
says of every executor call that nothing is tried before its dependencies, and nothing changes but on
the evidence it was reviewed on.

Seven findings came out of the proofs.

- Planning again after a clean run is not always quiet. The executor writes the read-only, hidden and
  system bits and leaves the other attribute bits of a new file as they are; the scanner records the
  whole word and the planner compares all of it. `Replan.OtherBitsUpdateAgain` gives, for any two
  different words, a plan that is achieved and a next plan that updates the same file, and
  `Workflow.MirrorLoneFile` the run. `Replan.ReplanAfterRun` is the exact statement: after a clean run
  the next plan updates exactly the copied files whose other bits differ from those of a new file and
  the files that lost their read-only bit as in the fourth finding, so it is quiet if and only if there
  are none.
- The judge lets a reviewed time differ by the granularity, the executor does not: a set that passes
  can still have operations that are stopped as drifted, no-ops among them. `Foresight.TickIsTolerated`
  gives the inputs, `Foresight.PassedIsEvidence` the exact condition for every kind of operation (the
  times are equal), and `Foresight.LateIsStopped` shows that such an operation changes nothing.
- For directory cleanups it is the judge that is stricter: the executor ignores a directory's time and link
  count, which removing its children may change, so a set that is resumed between the two can be refused.
  `Foresight.ChurnIsRefused` gives the input and `Foresight.CleanupPasses` the exact condition.
- Updating or deleting a read-only file clears its read-only bit, and the bit is put back only on a backup
  that is a link to it. Any other name of the file loses the bit too, even one in doubt:
  `Sharing.SharedFileShowsThrough` and `Quarantine.DoubtLosesReadonly` give the inputs,
  `Sharing.UnhandledExactly`, `Sharing.OthersWholeExactly` and `Quarantine.DoubtExactly` the exact
  condition, and `Sharing.HarmlessStays` what of it the plan shows. Entries, bytes and times stay.
- The judge looks at the trash only for trashing and for updates that go through it, but a move-update
  always retires its old file into the trash. `Clearance.TrashIsOverlooked` gives a set that passes with
  nothing known of the trash, and `Clearance.FilledTrashIsJudged` the exact condition.
- Directory cleanup is not sound for every pair of scans: the planner does not count a wanted child
  directory as remaining, so a source that lists `a\b` without `a` gets a cleanup of `a` while
  `a\b` stays. `CleanupSound.OrphanDirectoryIsStranded` gives the input,
  `CleanupSound.CleanupExactly` the exact condition (no required directory beneath), and
  `CleanupSound.CleanupIsSound` shows that well-formed source scans always meet it.
- A subscription from a number that lies in the future is not filtered: the stream delivers earlier
  numbers too. `EventBus.FirstEventReachesFifth` gives the input, and
  `EventBus.SubscriptionFiltersExactly` the exact condition over everything that may be emitted and read
  later (the number is at most the next one). Nothing that was asked for is lost.

## Model

| member | source | states |
|---|---|---|
| `Paths.TextContainmentIsComponentwise` | namisync/core/planning.py:483-484 | the string-prefix test on joined keys holds exactly when one component sequence is a prefix of the other, so `a\bc` is never taken for something beneath `a\b` |
| `Volume.TargetVolume.RenameNew` | namisync/modules/executor.py:422-423 | never replaces: the entry moves only to a free place; a failure may come before or after the effect; every state joins the history |
| `Volume.TargetVolume.Replace` | namisync/modules/executor.py:373-374 | atomic: the volume is the old one or the one with the source file at the destination, never anything between |
| `Volume.TargetVolume.Hardlink` | namisync/modules/executor.py:376-377 | the second name leads to the very same object, and only a free place is taken |
| `Volume.TargetVolume.ApplyMetadata` | namisync/modules/executor.py:318-334 | a failure may leave any prefix of the metadata steps; success wears all of them; bytes and the attribute bits outside the three standard ones never change |
| `Effects.OperationLosesNothing` | namisync/modules/executor.py:1136-1658 | in any state of one operation that deletes no file and updates through trash, every content held at a live or trashed place is still held at one |
| `Effects.UpdateTargetStaysWhole` | namisync/modules/executor.py:1184-1378 | in any state of an update the target exists and holds the old bytes, or the new ones with the old ones in trash when trash-on-update is set |
| `Effects.SucceededMoveUpdate` | namisync/modules/executor.py:1483-1607 | success means new bytes at the target, nothing at the old path, old bytes in trash |
| `Effects.OperationStaysWithinCharge` | namisync/core/planning.py:377-391 | the bytes in use exceed those before an operation by at most its charge, in every state of it, temporaries and copied backups included |
| `Steps.ReplaceStep` | namisync/modules/executor.py:1322-1328 | the atomic replacement takes a prepared and backed-up update from the old bytes to the new ones without leaving the allowed states |
| `Steps.RetireStep` | namisync/modules/executor.py:1559-1597 | renaming the old file into trash after publication stays within the allowed states of a move-update |
| `Progress.ProgressTracker.Copied` | namisync/modules/executor.py:724-731 | the byte count becomes the committed bytes and those of the current file up to its planned size, never less than before nor more than the total, and every report is at or above all earlier ones |
| `Progress.ProgressTracker.Settled` | namisync/modules/executor.py:733-745 | one more item is done, bytes never go back, reports stay in order |
| `Safety.CalculateRequiredBytes` | namisync/core/planning.py:369-391 | the loop computes the sum of the charges that the capacity bound is stated with |
| `Safety.SecuredByOperation` | namisync/core/planning.py:369-391 | if a call was within its budget, lossless, framed and justified before an operation, every state of that operation is, at the price of its charge |
| `Safety.GrantedIsRequired` | namisync/core/execution.py:72-79 | what the turns of a call may cost in total is the requirement computed for the remaining operations |
| `Executor.Machine.WriteChunk` | namisync/modules/executor.py:112-117 | however many partial writes it takes, the file holds a prefix of the content at every step and the whole chunk on success |
| `Executor.Machine.Stream` | namisync/modules/executor.py:105-121 | chunked copying: a prefix at every step, all bytes and their count on success, progress advanced |
| `Executor.Machine.GuardPresent` | namisync/modules/executor.py:1952-1975 | passes only when the live entry matches the reviewed evidence |
| `Executor.Machine.FlushBeforeDestructive` | namisync/modules/executor.py:2127-2138 | passes only when what was recorded of earlier operations would survive a crash, which every replacement, removal, displacing move and case-only rename requires |
| `Executor.Machine.PrepareCopy` | namisync/modules/executor.py:1053-1133 | touches nothing but the owned temporary; on success it holds the reviewed source's bytes and the target is still the reviewed one |
| `Executor.Machine.AttemptCopy` | namisync/modules/executor.py:1136-1181 | every state is a state of the copy; success means the new bytes and metadata at a place that was free |
| `Executor.Machine.EnsureBackup` | namisync/modules/executor.py:1224-1258 | after it an update with trash-on-update has its old bytes in trash, linked or copied, even when the link call reported a failure after taking effect |
| `Executor.Machine.StartUpdate` | namisync/modules/executor.py:1204-1269 | a continuation is stored only when it vouches for a prepared file and, with trash-on-update, a backup; otherwise the target is untouched |
| `Executor.Machine.CommitUpdate` | namisync/modules/executor.py:1276-1342 | a replacement that already happened in an earlier attempt is recognised and not repeated; the continuation stays sound |
| `Executor.Machine.SwapIn` | namisync/modules/executor.py:1317-1342 | the old or the new file is at the target whatever fails, the replacement is reported only if it happened, and if a single primitive failed a read-only file that was not replaced is read-only as before |
| `Executor.Machine.AttemptUpdate` | namisync/modules/executor.py:1184-1378 | one attempt, fresh or resumed, keeps every state allowed and the continuation sound; success means new bytes and metadata at the target and, with trash-on-update, a backup with the old bytes that wears the time and attributes of the displaced file |
| `Executor.Machine.AttemptMove` | namisync/modules/executor.py:1381-1416 | success means the very same entry now sits at the target, which was free; nothing moves but the reviewed file |
| `Executor.Machine.AttemptRecase` | namisync/modules/executor.py:1419-1480 | succeeds only for a prior path with another spelling of the same key, when source and prior file are the reviewed ones, and leaves keyed entries as they were |
| `Executor.Machine.AttemptMoveUpdate` | namisync/modules/executor.py:1483-1607 | one attempt, fresh or resumed; success means published, dressed and the reviewed old file retired |
| `Executor.Machine.AttemptTrash` | namisync/modules/executor.py:1610-1658 | success means the very same entry now sits in this run's trash; nothing is trashed but the reviewed file |
| `Executor.Machine.RemoveReviewed` | namisync/modules/executor.py:1687-1706 | only the reviewed entry disappears, and if a single primitive failed a read-only file that was not removed is read-only as before |
| `Executor.Machine.AttemptDelete` | namisync/modules/executor.py:1661-1713 | success means the entry is gone; in every state it is gone only if it was the reviewed one when the operation began, and a directory only if it was empty then |
| `Executor.Machine.AttemptNoop` | namisync/modules/executor.py:1716-1758 | skipped only when both sides still match the reviewed evidence |
| `Executor.Machine.CleanupInflight` | namisync/modules/executor.py:1938-1949 | removes at most the operation's own temporary and leaves the target alone; a tracked temporary is gone afterwards unless removing it failed |
| `Executor.Machine.Round` | namisync/modules/executor.py:852-896 | after one attempt the operation is settled, stopped by a request, or fit to be tried again with a sound continuation |
| `Executor.Machine.CarryOut` | namisync/modules/executor.py:851-896 | through any faults and at most the allowed retries every state is a state of the operation, and an outcome other than failed means it was achieved |
| `Executor.Machine.CarryThrough` | namisync/modules/executor.py:906-950 | the same for an operation that may be interrupted: afterwards no temporary is tracked and no continuation kept |
| `Sharing.UnhandledExactly` | namisync/modules/executor.py:1317-1350 | an achieved operation leaves a planned path that it does not handle wholly as it was, time and attributes included, if and only if it is not an update without a linked backup, or a delete, of a read-only file of which that path is a second name |
| `Sharing.OthersWholeExactly` | namisync/modules/executor.py:1661-1713 | the same for all planned paths at once: all others are whole if and only if the operation does not take the read-only bit from a file with a second planned path |
| `Sharing.SoleName` | namisync/modules/executor.py:1978-1991 | an update or delete that has its evidence, with a reviewed link count of at most one, finds no second name of its file |
| `Sharing.HarmlessStays` | namisync/modules/executor.py:1317-1350 | so the guard can be read off the plan: unless a read-only file with more than one link is deleted or replaced without a linked backup, every other planned path is wholly as it was |
| `Sharing.SharedFileShowsThrough` | namisync/modules/executor.py:1306-1342 | an achieved update of a read-only file with a second planned path, which loses its read-only bit there too and nothing else |
| `Run.ExactlyOneOutcome` | namisync/modules/executor.py:1879-1900 | each settled operation has exactly one reported outcome, and it is its status |
| `Run.DeepenedIsOrdering` | namisync/modules/executor.py:1783-1838 | ordering by depth keeps the operations and puts the deepest first |
| `Run.UsableDecides` | namisync/modules/executor.py:1869-1876 | the test on statuses and ready directories holds exactly when each dependency has succeeded or is a directory this call created |
| `Run.Execution.Settle` | namisync/modules/executor.py:1879-1900 | a status and its report are written together and once; a settled operation is left alone |
| `Run.Execution.Admit` | namisync/modules/executor.py:804-896 | stopped, blocked and unmet operations are settled without touching the volume; others are tried, logged with the statuses, created directories and volume of that moment, and stay within their charge |
| `Run.Execution.FinalizeDirectory` | namisync/modules/executor.py:1798-1836 | a created directory is settled as succeeded only if its target carries the intended time, creation time and standard attributes and a directory was intended; otherwise it has failed |
| `Run.Execution.FinalizeDirectories` | namisync/modules/executor.py:1783-1838 | every pending directory is settled, whatever fails, reported deepest first and each once; each that succeeded looks as intended, the later ones included, unless another operation creates the same directory; the run stays secured |
| `Run.Execution.RestoreDirectories` | namisync/modules/executor.py:1841-1866 | unless a failure is noted every directory that an earlier call created looks as intended again, and the ones finished in this call stay as they are |
| `Run.Execution.Conclude` | namisync/modules/executor.py:910-950 | pending directories are settled whatever ended the sweep; a cancel request is answered by a cancellation, a pause request by a pause, and nothing else by either |
| `Run.Execution.CancelRest` | namisync/modules/executor.py:911-923 | afterwards exactly the selected operations have a status, and those settled here are canceled |
| `Run.Execution.Sweep` | namisync/modules/executor.py:799-896 | every remaining selected operation is settled or pending unless a request stops the sweep; each state is within the budget granted so far |
| `Run.Execution.Execute` | namisync/modules/executor.py:769-976 | every state of a call: at most the required bytes above the start, no content lost if no selected operation may lose any, and a place changed only through an operation of the call whose reviewed evidence held in a recorded state when it began; a file of which no selected operation may change a planned path keeps bytes, time, attributes and gains no name; an operation is tried only unblocked and with each dependency succeeded or a directory this call had created, put off only with one that is neither, and every new status comes from an attempt or one of the three reasons to make none; statuses only grow; unless paused the status domain is the selection; a returned call leaves a trail in which every operation not reported as failed, canceled or deferred was achieved, in plan order; every directory created in the call and, after a call without failure, in earlier ones carries its intended time and attributes; progress reports rise within the totals |
| `Run.Execution.RunToEnd` | namisync/modules/executor.py:769-976 | over any chain of paused and resumed calls, which ends early only when a call is not paused: one outcome per operation, the no-loss, frame and whole-file guarantees in every state since the start, and after a last call without failure every directory created in any of them looks as intended |
| `PlanBuilder.BuildDirectories` | namisync/modules/planner.py:280-318 | the loop with its table of created directories computes the directory part |
| `PlanBuilder.BuildContent` | namisync/modules/planner.py:323-501 | the loop computes the content part, its claimed keys and the keys moved away from |
| `PlanBuilder.BuildRemovals` | namisync/modules/planner.py:503-522 | the loop computes the removal part and exactly the removed keys |
| `PlanBuilder.BuildCleanups` | namisync/modules/planner.py:544-603 | the loop with its table of cleaned directories computes the cleanup part |
| `PlanBuilder.BuildPlan` | namisync/modules/planner.py:231-605 | planning step by step yields the plan that all theorems are about |
| `Filters.FilteredIsLeftAlone` | namisync/modules/planner.py:243-256 | for all scans, policies and correspondences no operation of a plan has a filtered source, target or prior path |
| `Filters.SourceIsPlanned` | namisync/modules/planner.py:323-501 | every source file that is not filtered is read by a content operation |
| `Filters.TargetIsPlanned` | namisync/modules/planner.py:503-522 | unless the policy is additive every target file that is not filtered is the target or the prior path of an operation |
| `Filters.DirectoryIsPlanned` | namisync/modules/planner.py:280-318 | every source directory that is not filtered is on the target or created |
| `Filters.UnsupportedExactly` | namisync/modules/planner.py:525-542 | an unfiltered unsupported entry of either side, and nothing else, is planned as blocked for being unsupported |
| `Filters.RemovedIsExtra` | namisync/modules/planner.py:503-522 | what an operation that is not quarantined removes as an extra is a target file that was scanned, is not filtered, and has no unfiltered source file of its key |
| `Decisions.DecisionExactly` | namisync/modules/planner.py:323-501 | for all scans with distinct paths, with filters, collisions and every policy: what is planned for a source file, decided by quantified conditions on the scans and the correspondence alone (blocked and why; left, re-spelled or updated by its counterpart; moved, moved and updated, or copied), and that it waits for the deepest directory creation above it and for nothing else |
| `Decisions.MoveExactly` | namisync/modules/planner.py:182-228 | a file is moved from a pair if and only if the correspondence vouches for it: both volumes, stable identities, single links, identities that occur once on either side, one pair, nothing disqualified or ambiguous, and the old place wanted by nobody |
| `Decisions.TwinExactly` | namisync/modules/planner.py:79-115 | a target file that differs in normalization is taken for a source file's counterpart if and only if each is the only file of its parent and composed name without a counterpart of its own key |
| `Decisions.MkdirExactly` | namisync/modules/planner.py:280-318 | a directory creation is unblocked if and only if the target shows no file at its key and the source exactly one directory, and then intends that directory's stat |
| `Decisions.AncestorIsPlanned` | namisync/modules/planner.py:272-278 | every directory above an unfiltered source file is on the target or created |
| `Convergence.DirectoriesApply` | namisync/modules/planner.py:280-318 | applied to the target tree, the directory part succeeds in order and adds exactly the source's directories |
| `ContentStage.OpenShape` | namisync/modules/planner.py:327-501 | an unblocked content operation is a match with the target file of the same key, or a copy or move to a key that is free |
| `ContentStage.MovesAreDistinct` | namisync/modules/planner.py:182-228 | two source files never move from the same target file |
| `ContentStage.ContentDelivers` | namisync/modules/planner.py:327-501 | the content part succeeds in order; each source file is in place, moved files are gone from their old keys, nothing else changed |
| `CleanupStage.RemovalsSettle` | namisync/modules/planner.py:503-522 | the removal part succeeds in order and leaves only the source's files and directories of either side |
| `CleanupStage.CleanupsTidy` | namisync/modules/planner.py:544-603 | the cleanup part succeeds in order, each directory empty in its turn, and leaves only the source's entries |
| `MirrorTheorem.PlanConverges` | namisync/modules/planner.py:231-605 | for well-formed unfiltered scans and an unblocked plan, applying the operations' intended effects in order succeeds, and the tree has exactly the source's directories and files, metadata equal within the granularity |
| `MirrorTheorem.ReplanIsQuiet` | namisync/modules/planner.py:231-605 | any later scan of the intended result, with any correspondence, plans one no-op per source file and nothing else |
| `MirrorTheorem.AlignedPlan` | namisync/modules/planner.py:327-603 | where both sides have the same keys and spellings the plan is one operation per source file: a no-op where the metadata agree and an update elsewhere |
| `MirrorTheorem.InSyncIsQuiet` | namisync/modules/planner.py:393-448 | a target in step with its source has nothing planned but no-ops |
| `MirrorTheorem.QuietExactlyWhenMirrored` | namisync/modules/planner.py:231-605 | the plan is all no-ops if and only if the target already mirrors the source |
| `MirrorTheorem.CanonicalTree` | namisync/modules/planner.py:243-256 | sorting the scan records does not change the tree they show |
| `Constructible.PlanAcceptable` | namisync/core/planning.py:264-315 | for scans with distinct paths, with blocked operations, collisions, filters and every policy: operation ids are unique, dependencies come first and are listed once |
| `Constructible.PlanIgnoresOrder` | namisync/modules/planner.py:243-256 | permuting the records of either scan gives the identical plan |
| `CleanupSound.CleanupIsSound` | namisync/modules/planner.py:553-603 | for well-formed scans, with anything blocked or filtered: once a cleanup's dependencies have taken effect no scanned file or directory is left beneath it, nothing filtered or unsupported was there, and no planned operation writes there |
| `CleanupSound.CleanupExactly` | namisync/modules/planner.py:572-577 | once the dependencies of a planned cleanup have taken effect nothing is or will be beneath it if and only if no required directory is |
| `CleanupSound.OrphanDirectoryIsStranded` | namisync/modules/planner.py:572-577 | a pair of scans with a planned cleanup that is never bare, whatever has taken effect |
| `CleanupSound.FileVacated` | namisync/modules/planner.py:568-590 | each scanned file beneath a cleaned-up directory is emptied by an unblocked operation the cleanup depends on |
| `CleanupSound.ContentStaysOut` | namisync/modules/planner.py:273-278 | no content operation lands beneath a directory that is not wanted |
| `Selection.QuarantinedIds` | namisync/core/planning.py:424-476 | exactly the unblocked operations whose source, target or prior path lies in a blocked region, or whose removal would engulf one |
| `Selection.Propagate` | namisync/workflows/selection.py:92-126 | one pass decides every operation for good, and reports a change exactly when the exclusions grew |
| `Selection.ExcludeAll` | namisync/workflows/selection.py:48-126 | the repeated passes end on a shrinking count and reach the exclusions of a single pass in plan order |
| `Selection.SelectionIsGreatest` | namisync/workflows/selection.py:92-139 | the selection is the greatest dependency-closed set without blocked, quarantined or incomplete-unsafe operations |
| `Selection.SelectionPartitions` | namisync/workflows/selection.py:128-139 | each planned operation is either selected or explained, and explanations follow plan order |
| `Selection.ExclusionTells` | namisync/workflows/selection.py:48-126 | the outcome, reason and excluded dependencies of every exclusion, by what the operation is and by the reasons of the dependencies it loses |
| `Selection.DeriveSelection` | namisync/workflows/selection.py:48-139 | the loops return that greatest set and those explanations |
| `Quarantine.TextTestIsExact` | namisync/core/planning.py:479-484 | the text test finds exactly the keys at or beneath a blocked operation's target or prior path |
| `Quarantine.SafeKeepsAncestors` | namisync/core/planning.py:460-475 | no selected removal or move takes away something a blocked region lies beneath |
| `Quarantine.QuarantineExactly` | namisync/core/planning.py:424-476 | component by component, an operation is quarantined if and only if it is unblocked and its source lies beneath a blocked one's source, a target path of it lies in doubt, or it takes away an entry a region in doubt lies beneath |
| `Quarantine.IncompleteTakesNothing` | namisync/workflows/selection.py:73-90 | where a scan was incomplete no state of a selected operation misses an entry at a planned path that was there before |
| `Quarantine.QuarantineFrame` | namisync/core/planning.py:424-476 | executing any part of the derived selection leaves every place at or beneath a blocked operation's paths the same entry with the same bytes, and every file there wholly as it was, time and attributes included, unless it has a second planned path that a selected operation may change |
| `Quarantine.DoubtExactly` | namisync/modules/executor.py:1317-1350 | an achieved selected operation leaves a planned path in doubt wholly as it was if and only if it does not take the read-only bit from a file of which that path is a second name |
| `Quarantine.DoubtLosesReadonly` | namisync/modules/executor.py:1306-1342 | an achieved, unblocked, unquarantined update and a file in doubt that keeps its entry and bytes and loses its read-only bit |
| `Quarantine.RunSelected` | namisync/workflows/selection.py:48-139 | select, execute and resume: in every state of the whole run each place in doubt has its entry and bytes, its files are wholly as they were unless they have a second planned path that a selected operation may change, and each selected operation ends with one outcome |
| `Preflight.JudgePlace` | namisync/modules/preflight.py:443-473 | exactly the warranted structural refusals of one remaining operation |
| `Preflight.Judge` | namisync/modules/preflight.py:391-580 | the set of refusals is exactly the warranted ones, and the verdict is ok if and only if it is empty |
| `Preflight.JudgeMatchesSelector` | namisync/modules/preflight.py:427-473 | in any observed world a fresh execution set draws no structural refusal if and only if its selection is safe and dependency-closed |
| `Preflight.DerivedSelectionPasses` | namisync/modules/preflight.py:427-473 | the derived selection never draws a structural refusal |
| `Foresight.PassesExactly` | namisync/modules/preflight.py:348-388 | an observation passes exactly when it is usable and the executor's matcher accepts it with the time put right, the time itself being within the granularity |
| `Foresight.AcceptedPasses` | namisync/modules/preflight.py:475-508 | if nothing is refused, every subject of every remaining operation passed |
| `Foresight.PassedIsEvidence` | namisync/modules/preflight.py:475-508 | an operation of any kind that passed, on observations still true when it begins, has the evidence the executor asks for if and only if the times it compares are equal; with granularity zero they are |
| `Foresight.LateIsStopped` | namisync/modules/executor.py:1978-1991 | an operation of any kind, no-ops and case-only renames included, that passed with a time that is only near leaves the volume as it was and is not achieved |
| `Foresight.TickIsTolerated` | namisync/modules/preflight.py:384-386 | for trashing and for a no-op: an execution set of which nothing is refused, though the file is one tick younger than reviewed |
| `Foresight.CleanupPasses` | namisync/modules/preflight.py:384-387 | a directory cleanup for which the executor's evidence holds passes the judge if and only if the directory's time is within the granularity and its link count is the reviewed one |
| `Foresight.ChurnIsRefused` | namisync/modules/preflight.py:384-387 | an empty directory that the executor would clean up, and exactly one refusal, of its renewed time |
| `Foresight.Subjects` | namisync/modules/preflight.py:237-262 | the loop collects the source, target and prior path of every remaining operation and the parents of its target paths, and nothing else |
| `Foresight.PassedHasFooting` | namisync/modules/preflight.py:510-530 | if those subjects were observed and nothing is refused, the parent of every path acted on is checked itself, is there as a directory, or is created by the run |
| `Clearance.WorldExactly` | namisync/modules/preflight.py:394-426 | nothing is refused but for operations and places if and only if both roots are resolved, error-free, not clone-ambiguous, on exactly the reviewed volumes and apart, filters, policy and settings are unchanged, the requirement fits the space, and the trash, where updates or trashing use it, is available, contained, on the volume, writable and free of reparse points |
| `Clearance.ClearExactly` | namisync/modules/preflight.py:391-580 | for fresh and resumed sets: nothing is refused if and only if the world is in order, every remaining operation is safe with its dependencies at hand and agrees with all its observations, and every other required parent is a usable directory or created by the run |
| `Clearance.FillsTrashExactly` | namisync/modules/executor.py:1559-1597 | an achieved operation leaves something new in the trash if and only if it trashes, moves and updates, or updates through trash |
| `Clearance.FilledTrashIsJudged` | namisync/modules/preflight.py:546-562 | the trash that an operation fills is looked at before if and only if it is not a move-update while updates bypass the trash, or some other operation trashes |
| `Clearance.TrashIsOverlooked` | namisync/modules/preflight.py:546-550 | a set with one move-update of which nothing is refused, though nothing is known of the trash its old file will go to |
| `Pipeline.PlanIsExecutable` | namisync/modules/planner.py:231-605 | every plan has unique ids, ordered dependencies, and for each unblocked operation the evidence of its kind and the shape the executor relies on; unless the policy deletes, no operation may lose content when updates go through trash |
| `Pipeline.PlanIsValid` | namisync/core/planning.py:264-275 | valid recorded paths give valid planned paths |
| `Pipeline.PolicyIsObeyed` | namisync/modules/planner.py:503-522 | an additive plan takes nothing away, a trashing plan deletes no file, a mirroring plan trashes nothing |
| `Refinement.OperationRefines` | namisync/modules/executor.py:979-1050 | if the volume looks like a tree, in sizes, times and attributes, then after an achieved operation it looks like the tree its planned effect yields, except that copied files have the volume's other attribute bits; an operation that takes the read-only bit from a file with several links keeps all of that but read-only bits |
| `Refinement.BytesStay` | namisync/modules/executor.py:799-896 | the source's bytes, once at their target, stay there through all later operations that do not handle that key |
| `Refinement.LaterKeepsOff` | namisync/modules/planner.py:503-605 | after a file's operation no later operation of the plan handles its key |
| `Refinement.AchievedPlanMirrors` | namisync/modules/planner.py:231-605 | when every operation of an unblocked plan is achieved in order, directories and files sit exactly at the source's keys, every copied file holds the reviewed source's bytes, and every file has the intended size, time and attributes but for the other bits of copied ones and, only if the plan deletes or replaces without a linked backup a read-only file with several links, a lost read-only bit |
| `Refinement.PlanCopies` | namisync/modules/planner.py:327-501 | the copied files of a finished plan are exactly those at the targets of its copying operations |
| `Replan.ReplanAfterRun` | namisync/modules/planner.py:57-62 | after a clean run any later scan plans one operation per source file, updating exactly the copied ones whose other attribute bits are not those of a new file and those that lost their read-only bit; so the plan is quiet if and only if there are none |
| `Replan.CloselyStripsNothing` | namisync/modules/executor.py:1317-1350 | where no operation of the plan can take the bit from a file with several links, no source file's counterpart has lost its read-only bit |
| `Replan.OtherBitsUpdateAgain` | namisync/modules/executor.py:547-549 | for any two different words of other bits: a source, a plan achieved on an empty volume, a scan of the result, and the update it plans |
| `Pipeline.EverythingSelected` | namisync/workflows/selection.py:48-139 | of an unblocked plan from complete scans everything is selected |
| `Workflow.ClearLeftovers` | namisync/modules/executor.py:261-302 | removes only other runs' owned temporaries; on success all that were listed are gone and, where each is the only name of its file, exactly their bytes are free |
| `Workflow.RunExecution` | namisync/workflows/sync.py:126-210 | a session is declined if and only if something is not in order, with exactly the warranted refusals, and then volume and statuses are as they were; otherwise no state uses more bytes than there were plus what was free, if clearing leftovers freed what was counted as reclaimable, which for leftovers with one name each is the sum of their sizes; no content is lost; places in doubt keep entry and bytes, and files of which no selected operation may change a planned path are wholly as they were; directories created look as intended |
| `Workflow.Synchronize` | namisync/workflows/sync.py:104-210 | plan, select, and run sessions until one is not paused or none is left: places in doubt keep entry and bytes, files of which no selected operation may change a planned path are wholly as they were, each selected operation ends with one outcome, no target content is ever lost under the non-deleting policies, and after a session without failure every created directory looks as intended |
| `Workflow.MirrorOnce` | namisync/workflows/sync.py:104-210 | plan, select, judge and execute, whatever links the target has: a session that reports no failure leaves the volume a mirror of the source, with the source's bytes in every file that was to be copied and the intended time and attributes on every created directory, as the plan intended but for the other attribute bits of copied files and, only if the plan deletes or replaces without a linked backup a read-only file with several links, a lost read-only bit |
| `Workflow.MirrorLoneFile` | namisync/workflows/sync.py:104-210 | a file with other attribute bits than a new file gets: the session reports no failure and every later scan plans to update it |
| `EventBus.RemoveLastProgress` | namisync/dispatcher/event_bus.py:63-66 | the backward loop removes exactly the last Progress |
| `EventBus.OfferKeepsHonest` | namisync/dispatcher/event_bus.py:58-98 | whatever is offered, a stream stays honest: every reliable event asked for is delivered, queued or excused by a Gap at or below it; until it is ejected every reliable event from the first retained one on is delivered or queued; numbers rise; at most one Progress; at most capacity + 1 envelopes |
| `EventBus.OpenedIsHonest` | namisync/dispatcher/event_bus.py:301-335 | a new subscription, trimmed or gapped, starts honest |
| `EventBus.RecordKeepsReplay` | namisync/dispatcher/event_bus.py:282-287 | the bounded replay keeps every reliable event after the last evicted one, in order, with at most one Progress |
| `EventBus.ReplayIsFullest` | namisync/dispatcher/event_bus.py:282-287 | the replay takes the new event and lets go only of an older Progress for a newer one and, when it is full, of the oldest |
| `EventBus.OfferExactly` | namisync/dispatcher/event_bus.py:58-98 | a reliable event is appended while there is room; a stream is ejected only when full, with a Gap from the earliest unread number; a Progress replaces an older one and is dropped only when reliable events fill the queue |
| `EventBus.OpenedIsFullest` | namisync/dispatcher/event_bus.py:301-335 | a new stream starts with all events asked for that the replay has, or the latest that fit, after a Gap exactly if some are missing |
| `EventBus.StreamIsTheLog` | namisync/dispatcher/event_bus.py:58-110 | without a Gap, what was read and what waits is exactly the reliable part of the unbounded log from the requested number on |
| `EventBus.SubscriptionFiltersExactly` | namisync/dispatcher/event_bus.py:301-335 | over every later sequence of offers and reads nothing below the requested number is delivered if and only if that number is at most the next one |
| `EventBus.FirstEventReachesFifth` | namisync/dispatcher/event_bus.py:301-335 | asked for from number five on before anything was emitted, a stream delivers event one |
| `EventBus.EventStream.Offer` | namisync/dispatcher/event_bus.py:58-98 | coalesce, drop, eject or append, exactly as specified |
| `EventBus.EventStream.Read` | namisync/dispatcher/event_bus.py:100-110 | the oldest envelope moves from the queue to what was read |
| `EventBus.EventHub.Emit` | namisync/dispatcher/event_bus.py:270-299 | the event gets the next number, and every stream ever handed out stays honest, offered to or not |
| `EventBus.EventHub.ReadFrom` | namisync/dispatcher/event_bus.py:100-110 | reading keeps every stream honest |
| `EventBus.EventHub.Subscribe` | namisync/dispatcher/event_bus.py:301-335 | the new stream joins the others and all stay honest |
| `Audit.StepKeepsSound` | namisync/dispatcher/event_bus.py:161-230 | each step of the hub, the finalizing worker, a closer and the pump's thread keeps the bookkeeping sound |
| `Audit.OkIsHonest` | namisync/dispatcher/event_bus.py:169-189 | in every interleaving an OK means the observer accepted, in order, exactly the events offered before the finalize command was queued, and then finalization and closing |
| `Audit.DegradedExactly` | namisync/dispatcher/event_bus.py:161-230 | in every interleaving recording is degraded if and only if something went wrong: no room or no answer in time, or a failing observer |
| `Audit.RefusalIsDue` | namisync/dispatcher/event_bus.py:169-189 | finalizing never answers other than OK unless something went wrong |
| `Audit.FinalizeSucceeds` | namisync/dispatcher/event_bus.py:169-230 | from any moment at which nothing went wrong an undisturbed finalize is answered OK, after every waiting event was received |
| `Sessions.StepKeepsConsistent` | namisync/dispatcher/dispatcher.py:440-668 | each atomic step of a control or of any worker keeps at most one owner of the ending, a terminal state owned or announced, and all records consistent |
| `Sessions.OneTerminalOneTruth` | namisync/core/session.py:264-310 | in every interleaving of controls and any number of workers: stored states follow the transition table, at most one Terminal, carrying the stored result, which appears only after audit finalization; a terminal session that no worker is still about to announce has exactly one Terminal and a stored result |
| `Sessions.ResultIsFinal` | namisync/dispatcher/dispatcher.py:563-626 | once a result is stored neither it nor the state ever changes |
| `Endings.ResultTellsEnding` | namisync/core/session.py:264-310 | in every interleaving a stored result, and the Terminal, is what its worker's run ended with: canceled after a cancellation, failed after an exception, else the returned result but for the audit flag |
| `Endings.EndingWasMet` | namisync/core/session.py:264-302 | the ending that a result is held against is the one with which that worker's running invocation finished |
| `Endings.TrailIsOrdered` | namisync/core/session.py:37-97 | in every interleaving a session runs only when it was pending, pauses only when it was running, only ends once it is canceling, and nothing follows a terminal state |
| `Endings.RequestsLead` | namisync/dispatcher/dispatcher.py:232-317 | the state that a pause, resume and cancel request leads to from every state, or that it changes nothing |
| `Endings.CancelIsNotLost` | namisync/dispatcher/dispatcher.py:649-668 | in every interleaving, once all workers have left a paused session no cancel request on it is open |
| `Endings.CancelCompletes` | namisync/dispatcher/dispatcher.py:440-520 | from any phase before its ending a worker of a canceling session brings it by its own steps to canceled, with one Terminal |
| `Endings.RunCompletes` | namisync/dispatcher/dispatcher.py:440-561 | a pending session with a new worker left undisturbed runs, and its result is stored and announced once |
| `Scheduling.Pass` | namisync/dispatcher/dispatcher.py:394-416 | each queued session is decided from those before it, and exactly what the chosen ones need is reserved |
| `Scheduling.PassIsFair` | namisync/dispatcher/dispatcher.py:397-416 | chosen sessions need disjoint resources, none reserved before, none that an earlier queued session takes or waits for |
| `Scheduling.WaitingIsForced` | namisync/dispatcher/dispatcher.py:408-414 | a session waits only for something reserved or needed by an earlier queued one |
| `Scheduling.PassIsLive` | namisync/dispatcher/dispatcher.py:397-416 | with nothing reserved a non-empty queue always yields a selection |
| `Scheduling.PassReserves` | namisync/dispatcher/dispatcher.py:394-416 | whoever is not pending any more leaves the queue at once and reserves nothing; the pass reserves exactly what the chosen pending sessions declare |
| `Scheduling.UnpickedKeepsOrder` | namisync/dispatcher/dispatcher.py:417-421 | sessions left in the queue keep their order |
| `Scheduling.Scheduler.Schedule` | namisync/dispatcher/dispatcher.py:394-421 | the pass on the dispatcher's own fields: queue, reservations and selection |
| `Custody.LocalLocks.Poll` | namisync/dispatcher/custody.py:51-62 | all or nothing: granted exactly when nothing asked for is held and no cancel was requested; a withdrawn attempt holds nothing |
| `Custody.LocalLocks.Release` | namisync/dispatcher/custody.py:25-36 | the held set stays the disjoint union of leases not given back, however often a lease is released |
| `Custody.StepKeepsConsistent` | namisync/dispatcher/custody.py:113-157 | each step of any process keeps mutex ownership in agreement with what the processes have acquired, in order |
| `Custody.NoDeadlock` | namisync/dispatcher/custody.py:113-143 | in every run of any number of processes the wait-for graph has no cycle |
| `Custody.SomeoneCanGoOn` | namisync/dispatcher/custody.py:113-143 | if all claims are still waiting, one of them can proceed at once |
| `Custody.DepartedOwnsNothing` | namisync/dispatcher/custody.py:138-157 | a process whose acquire failed or was canceled and backed off owns nothing |
| `Custody.Exclusive` | namisync/dispatcher/custody.py:113-143 | two processes never hold a common resource |
| `Ledger.UpsertKeepsValid` | namisync/db/recorder.py:756-815 | an observation keeps one row per location and key, dated missing rows, and correspondence in place |
| `Ledger.PairedKeepsValid` | namisync/db/recorder.py:1154-1192 | correspondence stays a partial bijection between rows of the mapping's own two locations |
| `Ledger.DeletedKeepsValid` | namisync/db/schema.py:173-186 | a deleted row takes its correspondence with it and nothing else |
| `Ledger.FullScanIsMirrored` | namisync/db/recorder.py:452-593 | after a complete full scan the location's present and unsupported keys are exactly the scan's, and other locations, correspondence and attestations are untouched |
| `Recorder.MoveRowMoves` | namisync/db/recorder.py:1018-1084 | a move is refused exactly when something present is in the way or the prior row is not as expected; otherwise the prior path's row alone is at the new path, present, seen and undated, with what it had attested, nothing is left at the prior path, and no other row changed |
| `Recorder.LedgerInvariants` | namisync/db/recorder.py:412-685 | after every sequence of commands: unique location and key, missing exactly when dated, correspondence injective and between the right locations |
| `Recorder.ReplayIsHarmless` | namisync/db/recorder.py:726-738 | repeating an accepted command with the same payload, after any other commands, is accepted and changes nothing |
| `Recorder.EvidenceStaysHome` | namisync/db/recorder.py:889-1192 | recording a run's evidence changes only rows of the run's own two locations |
| `Recorder.PairUpPairs` | namisync/db/recorder.py:944-988 | a recorded copy with a known source identity leaves the rows of its two paths linked, the target present and attested |
| `Recorder.IntegrityIsGuarded` | namisync/db/recorder.py:616-685 | integrity evidence is applied only to the row, stat and baseline it was computed for and changes only that row's evidence; otherwise it is stale and changes nothing |
| `Testimony.EvidenceIsSaid` | namisync/db/recorder.py:889-1192 | recorded for the first time, evidence is of a selected operation of its kind and complete, and the ledger says what it shows: the one row of the target present as found, attested by a copy, or missing since then as last seen |
| `Testimony.AbsentSays` | namisync/db/recorder.py:1097-1125 | a trashed or deleted entry is missing since then and last seen as reviewed; refused if and only if it is not what was reviewed |
| `Testimony.SeenAgain` | namisync/db/recorder.py:756-815 | a row that is seen again keeps its attestation and verification date, is dated missing no more, and one that was missing is noted as reappeared |
| `Testimony.IntegritySays` | namisync/db/recorder.py:616-685 | stale if and only if the row is no longer that row, refused if and only if it is and the attested file is another; otherwise attested, dated if verified, and its reappearance cleared if asked |
| `Testimony.MissingExactly` | namisync/db/recorder.py:545-592 | a row that a scan did not observe becomes missing, and is dated, if and only if the scan is complete and covers it; otherwise it stays as it was |
| `Testimony.InventoryExactly` | namisync/db/recorder.py:412-450 | when a scan is refused, answered from its receipt or reconciled: offline, repeated, of another volume, or observing a key twice |
| `Testimony.RepetitionExactly` | namisync/db/recorder.py:896-925 | evidence for what was not selected or of another kind is refused, and so is a repetition with another payload; the same payload changes nothing |
| `Recorder.LedgerRecorder.Observe` | namisync/db/recorder.py:458-512 | upserting in chunks of 400 rows does what upserting one by one does |
| `Recorder.LedgerRecorder.Record` | namisync/db/recorder.py:412-436 | one transaction: the ledger changes only when it commits, and repeated commands are answered from their receipt |
| `Verifier.IntegritySelection.EmitAndComplete` | namisync/modules/verifier.py:197-212 | the outcome is reported once, then the row counts as done with its bytes |
| `Verifier.Pass.ProcessItem` | namisync/modules/verifier.py:215-421 | for everything a reader may show or fail with: each finding if and only if its cause, mismatched exactly when an unchanged, wholly read file differs from its baseline, modified exactly on drift before or after reading, absent, unsupported and failed exactly on their causes |
| `Verifier.OneFinding` | namisync/modules/verifier.py:215-421 | whatever is shown of a row warrants exactly one finding |
| `Verifier.Pass.NoteRead` | namisync/modules/verifier.py:122-128 | bytes done never exceed the total, which a growing subject raises, and snapshots never go back |
| `Verifier.Pass.Run` | namisync/modules/verifier.py:150-194 | unless paused every row is settled; every event reports the finding that what was shown of its row warrants, or, only after a cancel request, a cancellation; the result is degraded exactly when some outcome of the call is |
| `Verifier.RunToEnd` | namisync/modules/verifier.py:150-194 | over any chain of pauses and resumes each row is reported exactly once and completed bytes never exceed processed bytes |

## Left out

- Destination policies other than identity assignment, and plan scopes other than everything: the planner refuses the latter.
- Native file system, scanner and reader calls, SQLite, JSON, SHA-256 and the real case-folding and normalization tables: only the contracts named above are kept.
- Security descriptors: copying them is not modelled beyond the failure it may raise.
- Wall-clock timeouts, sleeping and progress pacing: replaced by choice.
- The order of a cleanup's dependencies: the program sorts them by id text, the model keeps the order they were found in.
- Executor.Machine.AttemptRecase: does not model the spelling of the renamed entry, because the volume is keyed by folded paths.
- Executor.Machine.CleanupInflight: says nothing about a copied backup's temporary inside trash, which the program does not track either.
- Flushing files and directories to disk: calls that may fail and change nothing. Of durability only the flush of recorded evidence before anything is displaced is stated.
- Executor.Machine.CarryThrough: says that an interrupted operation's temporary is tracked no more, not that it is gone, because removing it may fail unnoticed; Executor.Machine.CleanupInflight states when it is gone.
- Executor.Machine.RemoveReviewed: promises the read-only bit back only for files and for a single failing primitive, because giving it back may fail as well.
- Convergence of a pause taken between two attempts of an update or move-update: continuations are not kept across calls, so only no-loss, the frame and outcome counting are stated there.
- Workflow.MirrorOnce: covers one session that is not paused.
- The renewal of a directory's time when its children change: the volume keeps directory times fixed, so `Foresight.ChurnIsRefused` starts from the renewed time.
- Replan.ReplanAfterRun: takes the spellings of the later scan to be those the plan gave, because the volume is keyed by folded paths.
- MirrorTheorem.PlanConverges: is about intended effects, which write the whole attribute word; what the executor leaves is stated by Refinement.AchievedPlanMirrors.
- MirrorTheorem.ReplanIsQuiet: is about the intended result as well; Replan.ReplanAfterRun is about the volume after a run.
- Executor.Machine.PrepareCopy: does not model a source that changes while it is streamed, because the source tree is fixed for a run.
- Custody.DepartedOwnsNothing: does not model a failing release of an owned mutex, which the program only reports.
- Workflow.RunExecution: leaves out the commitment digest, the store, the recording session and the event wiring around the judge and the executor; free and reclaimable space are the observed numbers.
- EventBus.EventHub.Subscribe: closing the whole hub counts as detaching its streams; events emitted after that are not promised to anyone.
- The dispatcher's reserved set and per-session lease slot over whole runs: releases go by session and resource, not by worker, so exclusion is stated at the lock providers and fairness per pass.
- Sessions.OneTerminalOneTruth: does not promise that a terminal state is ever reached, because nothing forces a worker to take its next step; Endings.RunCompletes and Endings.CancelCompletes say where its steps lead.
- Acknowledgement, exclusion and hardlink-group columns of the inventory, volumes, hosts and run rows: they would only add field-by-field copying.
- Recorder.LedgerRecorder.Record: the host id of an observation and the counts it returns are not modelled.
- Commitment digests, the plan fingerprint and the policy fingerprint: equality tests on injective tokens.
- Command line, history browsing and the composition root: user interface and wiring.
