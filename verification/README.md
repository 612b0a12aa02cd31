# Roadex, verified

Roadex runs coding sessions on behalf of people and pauses them for human decisions. This project
models the parts of it where a mistake would be costly and hard to see, and proves what they
promise, in Dafny 4.11.

| group | files | what it is about |
|---|---|---|
| approval coordinator | `Approval*.dfy` | waits for human approval, their dispatch to a runner, their completion, closing and reopening of sessions |
| project creation | `Project*.dfy` | the leased workflow that creates a project, and the worker that drives it |
| parsers and framers | `Json*.dfy`, `ManifestScanner.dfy`, `StableJson.dfy`, `AppPublication.dfy`, `Sse.dfy`, `JsonlReader.dfy` | the duplicate-key scanner, canonical JSON and the idempotent requester, the event stream, the runner's output |
| bounded stores | `ReplayStore.dfy`, `Retention.dfy`, `MarkerWindow.dfy` | single-use nonces, what a saved state keeps, the marker window of the serial verifier |
| device bridge | `DeviceBridge*.dfy` | from the request to flash a device to the report of its outcome |

`dafny verify dfyconfig.toml` checks everything.

## How the models are built

**Steps.** The coordinator, the broker with its worker, the requester and the device bridge are step
systems: a step is one stretch of code that nothing interrupts, a run is any sequence of steps with
any answers from outside and any choice of failing saves. The coordinator is cut where it awaits the
provider (`getStatus`) and the runner (`queueContinuation`); a refresh or a reopening and the
dispatch reservation behind it are one step. The broker is cut at its awaits on the evidence lookup,
and the requester between its lookup and its insert, where another process may come first. Saving is
synchronous in production, so a save is part of its step.

**Two forms.** Where the code changes an object, the project has a class with the same fields whose
methods make the changes one by one, snapshots and rollbacks included; each method is proved to take
exactly the step of that name, and what holds over runs is proved about the steps. The parsers that
move a position or keep a buffer are classes too, proved against functions of the text.

**Outcomes written out.** What a step makes of a record is stated a second time without the step's own
functions: by the states, limits and deadlines themselves (`ApprovalOutcomes`, `ApprovalHandOver`,
`ApprovalLifecycle`), by the earlier steps of the run that have led there (`ApprovalFinality`,
`ProjectHistory`, `ProjectWorkerRules`, `DeviceBridgeHistory`), and by tables of digits, letters and
whitespace (`JsonSpelling`, `ApprovalFields`, `ProjectFields`).

**Digests, tags and tokens.** A digest or an HMAC is taken as injective and stands for what it
digests; random identifiers and tokens are parameters that are not drawn twice. Clock readings are
parameters. They may be anything for the coordinator; they do not go back for the broker and the
replay store, which depend on it.

## What the models show about the code

* **A late answer can revive a closed wait.** A session that is closed while its hand-over is on the
  way, and reopened before the answer arrives, ends with two blocking waits
  (`LateAnswerBreaksOneBlocking`). It is not enough to forbid that: when the answer comes first and
  nothing is outstanding any more, the session that is then reopened is `ready` and shows no wait
  although it has one (`RevivedWaitIsNotShown`). The exact guard of both is whether the session has an
  active wait (`UnsafeExactly`). Reopening only when the runner owes nothing removes the first and not
  the second (`PatientIsSafe`).
* **A lifecycle change that cannot be saved** stays in memory in two cases only: the session service
  closes an open session without active waits, or opens a closed one that shows no wait
  (`CommitsOrRestoresExactly`).
* **`completeRunner`** answers `true` at most once per wait, whatever happens (`CompletedOnce`). Per
  continuation and run it can answer `true` twice: a wait registered again for the same approval and
  version has the same continuation, and the runner may give it the same run id
  (`RepeatedRunCompletesTwice`). It does so exactly when another wait is dispatching under both
  (`CompletesAgainExactly`).
* **A run can start on a finished operation.** No lease is given out for one
  (`FinishedIsNotClaimed`), but the operation is not looked at again once a lease has been given out:
  when the lease expires while its caller waits for the second look at the evidence, another run may
  finish the operation first, and the adapter then starts on it (`LateRunStarts`). A run finds its
  operation where its lease says, or to be retried there, exactly when no other run has committed a
  checkpoint past that phase, and finished exactly when another run has finished it (`StartsExactly`).
  While the lease has not expired it is still the operation's, and neither happens; once it has, the
  operation can go to reconciliation first (`AnyLeaseCanBeOvertaken`). A run that has lost its lease
  changes no row of the tables any more (`LostRunIsFenced`).
* **A worker whose lease has expired** still runs its adapter and may call the thread finalizer for an
  operation that another worker has meanwhile sent to reconciliation (`StaleRunFinalizes`). The
  operation is no further than `pushed` exactly when no run of it knows a later checkpoint to be
  committed, and an unexpired lease is enough for that (`FinalizesAtPushed`).
* **A phase can move back** when one holder has two advances under way (`StaleAdvanceMovesBack`,
  `MovesBackExactly`), and only then (`PhaseNeverMovesBack`). A worker run waits for each of its
  advances.
* **The replay store** accepts a grant twice when more than ten minutes lie between the two
  consumptions, which takes a delay between the last verification and the consumption
  (`DelayAcceptsTwice`, `AcceptedTwiceOnlyLate`).
* **The marker window** is reliable for chunks up to a length exactly when chunk and marker together,
  less one character, fit in it (`ReliableExactly`): for every longer one there is a stream that brings
  the marker unseen, cut before its last character (`LongChunkHidesMarker`).

## Model

| member | source | states |
|---|---|---|
| ApprovalSafety.RunSound | src/server/approvalCoordinator.ts:352-918 | every state of every run is sound, whatever the provider and the runner answer, whichever saves fail and however often the process restarts: the invariant the theorems on hand-overs, resumption and durability rest on |
| ApprovalTheorems.HandOversBounded | src/server/approvalCoordinator.ts:1119-1421 | a wait is handed to the runner at most once plus once for each committed `capacity` answer |
| ApprovalTheorems.ResumedIsEarned | src/server/approvalCoordinator.ts:577-654 | a resumed wait was approved in its exact scope and version, was started under a recorded run, and that run succeeded on its own thread |
| ApprovalTheorems.HistoryIsEstablished | src/server/approvalCoordinator.ts:939-1117 | the facts behind the two statements above are entered only by a trusted provider answer, a parsed runner answer or a completion that really arrived in that step |
| ApprovalTheorems.StartedIsDurable | src/server/approvalCoordinator.ts:1266-1290 | a start is recorded as a fact only when the durable record carries the run |
| ApprovalTheorems.CompletedOnce | src/server/approvalCoordinator.ts:577-654 | `completeRunner` answers `true` at most once per wait, and at most once per run the runner does not reuse |
| ApprovalRepeatedRun.CompletesAgainExactly | src/server/approvalCoordinator.ts:586-610 | after a completion, `completeRunner` answers `true` again for its continuation and run if and only if another wait of an open session is dispatching under both and saving succeeds |
| ApprovalRepeatedRun.RepeatedRunCompletesTwice | src/server/approvalCoordinator.ts:2001-2004 | a concrete run from a fresh server that completes one continuation and run twice, as two waits |
| ApprovalTheorems.CommitOrRestore | src/server/approvalCoordinator.ts:1567-1591 | every step commits memory to disk or restores waits, list, sessions and generations, except two unsaved lifecycle changes of the session service |
| ApprovalTheorems.CommitsOrRestoresExactly | src/server/sessionService.ts:987-1010 | where memory is on disk, a step parts them if and only if it is an unsaved close of an open session without active waits or an unsaved opening of a closed one that shows no wait |
| ApprovalTheorems.PublishedIsDurable | src/server/approvalCoordinator.ts:1567-1591 | every published or audited result was on disk when it was published |
| ApprovalOutcomes.RefreshOutcome | src/server/approvalCoordinator.ts:959-1091 | in every run a current refresh whose result is saved leaves the wait, in memory and on disk, delayed without an answer, a security failure on an untrusted one, pending on an undecided one and refused by that decision on a refusal, with the pause that follows, and touches no other wait |
| ApprovalOutcomes.VerdictCounts | src/server/approvalCoordinator.ts:1708-1729 | an answer counts exactly when it is the provider's readable word on the very approval the wait stands for |
| ApprovalOutcomes.RefusalReleasesSession | src/server/approvalCoordinator.ts:1065-1091 | in a safe run the session of a wait that has just been refused has no active wait, is not paused and shows nothing |
| ApprovalFinality.RefusalIsFinal | src/server/approvalCoordinator.ts:1065-1091 | in every continuation a refused wait stays refused by that decision, in memory and on disk, and is never handed over again |
| ApprovalFinality.SettledForever | src/server/approvalCoordinator.ts:577-654 | a refused or resumed wait that is on disk never changes again and is never handed over again |
| ApprovalOutcomes.ApprovalIsHandedOver | src/server/approvalCoordinator.ts:1041-1063 | in a safe run an approval that is saved is recorded under its version and handed over once, or stays queued when the reservation cannot be saved |
| ApprovalHandOver.HandedOverIsReserved | src/server/approvalCoordinator.ts:1119-1206 | in every run, safe or not, a step hands over one wait at a time, whose reservation is on disk and whose evidence stands: readable fields, its own continuation, a closed prior wait of the same standing, and a session paused on its thread that shows it |
| ApprovalHandOver.UnfitIsRefused | src/server/approvalCoordinator.ts:1427-1478 | in every run a queued wait of an open session without that evidence is not handed over but becomes a security failure, or stays when that cannot be saved |
| ApprovalHandOver.EvidenceExactly | src/server/approvalCoordinator.ts:239-346 | the evidence checks pass exactly when the wait is fit to run in that sense |
| ApprovalOutcomes.HandOverOutcome | src/server/approvalCoordinator.ts:1227-1368 | in every run the saved answer to a hand-over starts, queues again until then, closes or fails the wait, or sends it to reconciliation, as the answer says while the binding holds; and to reconciliation once it is lost, unless the session was closed and the answer says nothing new |
| ApprovalOutcomes.BindingHolds | src/server/approvalCoordinator.ts:1835-1866 | in a safe run the binding of a hand-over holds exactly while its session is open and has not been closed since and the wait dispatches |
| ApprovalOutcomes.CompletionOutcome | src/server/approvalCoordinator.ts:577-654 | in a safe run the result of a run settles the dispatching wait of an open session under that continuation and run: resumed on its own thread, a security failure on another, reconciliation otherwise; the answer is `true` exactly when it is saved, and one that is not saved is remembered for the recovery |
| ApprovalOutcomes.NothingToComplete | src/server/approvalCoordinator.ts:586-610 | without such a wait the answer is `false` and nothing changes |
| ApprovalLifecycle.RegistrationOutcome | src/server/approvalCoordinator.ts:400-513 | in every run a registration adds a new pending wait of its scope, shown by its session, exactly when the provider confirms the undecided approval, an identifier is left, the session can wait and saving succeeds; otherwise nothing changes |
| ApprovalLifecycle.RegistrationAsks | src/server/approvalCoordinator.ts:361-372 | a registration asks the provider exactly when all its fields can be read |
| ApprovalLifecycle.FailureOutcome | src/server/approvalCoordinator.ts:739-772 | in a safe run a failed user run gives the active wait of an open session up for its reason and is answered `true`, or changes nothing and is answered `false` |
| ApprovalLifecycle.NothingToFail | src/server/approvalCoordinator.ts:739-750 | without an active wait, or for a closed session, the answer is `false` and nothing changes |
| ApprovalLifecycle.RecoveryOutcome | src/server/approvalCoordinator.ts:1370-1421 | in a safe run a dispatch goes to reconciliation exactly at startup, without a run, or after a completion that could not be saved |
| ApprovalLifecycle.StartupRecovery | src/server/approvalCoordinator.ts:562-575 | in a safe run the startup does that once no retirement is owed, and nothing before |
| ApprovalLifecycle.TickRecovery | src/server/approvalCoordinator.ts:530-556 | in a safe run a tick does it only without a run or after a completion that could not be saved |
| ApprovalLifecycle.CloseOutcome | src/server/approvalCoordinator.ts:697-737 | in every run closing a session with active waits closes exactly these, durably, and moves its generation on; or leaves memory, disk and generation as they were |
| ApprovalLifecycle.ReopenAsks | src/server/approvalCoordinator.ts:774-800 | in every run reopening a closed session asks the provider about its newest closed wait, and opens it at once when there is none |
| ApprovalLifecycle.ReopenRefused | src/server/approvalCoordinator.ts:812-842 | a refusal opens the session without a wait |
| ApprovalLifecycle.ReopenUntrusted | src/server/approvalCoordinator.ts:795-811 | no answer, or an untrusted one, changes nothing |
| ApprovalLifecycle.ReopenUndecided | src/server/approvalCoordinator.ts:843-918 | in a safe run an undecided approval puts a new pending wait of the same standing in the place of the closed one |
| ApprovalLifecycle.ReopenApproved | src/server/approvalCoordinator.ts:843-918 | in a safe run an approval that has come meanwhile puts a wait there that is handed over at once, or stays queued when its reservation cannot be saved |
| ApprovalLifecycle.TickTakesDue | src/server/approvalCoordinator.ts:1593-1595 | a tick takes exactly the listed waits that are pending, delayed, queued or dispatching and whose time has come |
| ApprovalLifecycle.TickAsks | src/server/approvalCoordinator.ts:939-958 | in every run a tick asks the provider once about the next undecided wait and waits for the answer |
| ApprovalLifecycle.TickHandsOver | src/server/approvalCoordinator.ts:546-549 | in a safe run a tick hands the next queued wait of an open session over once and waits for the answer, or goes on when the reservation cannot be saved |
| ApprovalLifecycle.TickStarts | src/server/approvalCoordinator.ts:515-529 | a tick starts exactly when none is under way and no retirement is owed |
| ApprovalLifecycle.TicksAfterRetirements | src/server/approvalCoordinator.ts:515-529 | in every run a tick is under way only while no retirement of a closed session is unsaved |
| ApprovalLifecycle.TickPassesOver | src/server/approvalCoordinator.ts:530-556 | a tick passes over a wait that is gone, over, or of a closed session |
| ApprovalLifecycle.TickGoesOn | src/server/approvalCoordinator.ts:530-556 | an answer lets the tick that waits for it go on, and a tick without further waits is over |
| ApprovalLifecycle.RefreshIsCurrent | src/server/approvalCoordinator.ts:1813-1833 | in a safe run the answer to a refresh is current exactly while its session is open and has not been closed since and the wait is undecided |
| ApprovalLifecycle.StaleRefreshIsDropped | src/server/approvalCoordinator.ts:946-958 | an answer that is not current changes nothing |
| ApprovalLifecycle.RestartOutcome | src/server/approvalCoordinator.ts:146-187 | a new process has the waits of the disk but closes the active ones of closed sessions; an open session is paused exactly when it has an active wait, a running one is ready otherwise, and no answer is owed |
| ApprovalLifecycle.RetirementOutcome | src/server/approvalCoordinator.ts:656-695 | in every run saving the retirements of a session puts memory on disk, announces exactly its retired waits, and leaves the others owed |
| ApprovalLifecycle.MissingWaitOutcome | src/server/approvalCoordinator.ts:1539-1565 | the answer for a wait that has left the list blocks its session, unless closed, and clears what it shows |
| ApprovalFields.FieldExactly | src/server/approvalCoordinator.ts:1731-1745 | for text in the basic plane, a field is what trimming leaves alone, has 1 to 256 code units and no control character |
| ApprovalFields.TokenExactly | src/server/approvalCoordinator.ts:1747-1749 | a token is a field of that length in letters, digits, points, underscores and hyphens |
| ApprovalFields.VersionExactly | src/server/approvalCoordinator.ts:88 | a decision version is `sha256:` and 64 lower-case hexadecimal digits |
| ApprovalCoherence.StepCoherent | src/server/approvalCoordinator.ts:1918-1953 | every step that is not unsafe keeps one blocking wait per session, exact projections and canonical continuation ids through version changes, successors and rollbacks |
| ApprovalCoherence.DispatchNeverFails | src/server/approvalCoordinator.ts:239-346 | in a coherent state a queued wait of an open session passes its evidence checks, is reserved and handed over |
| ApprovalRuns.UnsafeExactly | src/server/approvalCoordinator.ts:1505-1529 | a step keeps one blocking wait per session and exact projections if and only if it neither revives a wait beside an active one nor opens a session over one |
| ApprovalRuns.AtMostOneBlockingWait | src/server/approvalCoordinator.ts:697-918 | in a safe run a session never has two blocking waits |
| ApprovalRuns.SummaryIsExact | src/server/approvalCoordinator.ts:1918-1953 | in a safe run an open session is paused and shows its newest blocking wait exactly when it has one, and a closed session shows nothing |
| ApprovalRuns.HonestDispatch | src/server/approvalCoordinator.ts:1119-1160 | in a safe run no queued wait of an open session ends in a security failure at dispatch |
| ApprovalRuns.HonestCompletion | src/server/approvalCoordinator.ts:577-654 | in a safe run a dispatched wait passes its evidence checks, and its completion is a security failure exactly when it succeeded on another thread |
| ApprovalPatience.PatientIsSafe | src/server/approvalCoordinator.ts:774-918 | a run is safe when no session is reopened while the runner owes it an answer and none is opened without a wait over an active one |
| ApprovalPatience.PatientRunsReviveNothing | src/server/approvalCoordinator.ts:1480-1529 | in such a run no late answer revives a wait beside another |
| ApprovalCounterexamples.LateAnswerBreaksOneBlocking | src/server/approvalCoordinator.ts:1505-1516 | a concrete run from a fresh server in which a late answer leaves a session with two blocking waits |
| ApprovalCounterexamples.RevivedWaitIsNotShown | src/server/approvalCoordinator.ts:774-800 | a concrete run that ends with nothing outstanding and a closed session with a revived wait, whose reopening makes it `ready` over that wait |
| ApprovalProjection.NewestIsNewest | src/server/approvalCoordinator.ts:1924-1937 | the wait a session shows is one of its selected waits, and none of these is newer |
| ApprovalProjection.NewestIsFirst | src/server/approvalCoordinator.ts:1924-1937 | it is the first listed of the newest ones, as a stable sort has it |
| ApprovalService.ApprovalCoordinator.constructor | src/server/approvalCoordinator.ts:146-187 | a new process retires the waits of closed sessions, projects every session, and is sound |
| ApprovalService.ApprovalCoordinator.PersistWaitTransition | src/server/approvalCoordinator.ts:1567-1591 | projects and saves, or puts the session and the wait back exactly |
| ApprovalService.ApprovalCoordinator.RegisterAnswered | src/server/approvalCoordinator.ts:400-513 | the rest of `register`: pushes, projects, saves, or splices the wait out again |
| ApprovalService.ApprovalCoordinator.NextId | src/server/approvalCoordinator.ts:1868-1888 | the first usable identifier of at most eight |
| ApprovalLifecycle.FirstUsable | src/server/approvalCoordinator.ts:1868-1888 | there is an identifier exactly when one of so many candidates is usable and the generator has not thrown before it, and it is the first such one |
| ApprovalService.ApprovalCoordinator.RefreshAnswered | src/server/approvalCoordinator.ts:939-1117 | applies a provider answer field by field, or nothing, and goes on to the dispatch of a recorded approval |
| ApprovalService.ApprovalCoordinator.DispatchApprovedWait | src/server/approvalCoordinator.ts:1119-1188 | reserves durably, checks again, and only then hands over |
| ApprovalService.ApprovalCoordinator.DispatchAnswered | src/server/approvalCoordinator.ts:1190-1368 | applies the runner's answer, with or without its binding |
| ApprovalService.ApprovalCoordinator.CompleteRun | src/server/approvalCoordinator.ts:577-654 | completes the first matching wait; its answer is `true` exactly when one more completion is recorded |
| ApprovalService.ApprovalCoordinator.FailRun | src/server/approvalCoordinator.ts:739-772 | settles the blocking wait of a failed user run |
| ApprovalService.ApprovalCoordinator.CloseWaits | src/server/approvalCoordinator.ts:697-737 | closes every active wait in a loop, and restores each of them, the session and the generation when saving fails |
| ApprovalService.ApprovalCoordinator.PersistClosedRetirements | src/server/approvalCoordinator.ts:656-695 | saves and then publishes the retired waits of one session, in list order |
| ApprovalService.ApprovalCoordinator.RecoverDispatchingWait | src/server/approvalCoordinator.ts:1370-1421 | sends an unacknowledged dispatch to reconciliation |
| ApprovalService.ApprovalCoordinator.ReopenAnswered | src/server/approvalCoordinator.ts:774-918 | reopens without a wait, or with a successor that may be dispatched at once |
| ApprovalService.ApprovalCoordinator.ContinueTick | src/server/approvalCoordinator.ts:530-556 | one round of the tick over the due waits |
| ProjectSafety.RunSound | src/server/projectCreationBroker.ts:168-491 | the broker's invariant holds in every interleaving of its calls |
| ProjectTheorems.OneActiveLease | src/server/projectCreationBroker.ts:320-363 | at every moment at most one operation of the table has an unexpired lease |
| ProjectTheorems.LostTokenIsFenced | src/server/projectCreationBroker.ts:382-454 | once no row carries a token, no later advance with it changes any row, whatever it had read before |
| ProjectTheorems.TakeoverSupersedes | src/server/projectCreationBroker.ts:334-353 | claiming an operation supersedes the token it was leased under |
| ProjectTheorems.PhaseNeverMovesBack | src/server/projectCreationBroker.ts:382-454 | when every holder advances one call at a time, the effective phase of an operation never moves back |
| ProjectTheorems.MovesBackExactly | src/server/projectCreationBroker.ts:408-437 | without that, an advance moves an operation back if and only if it commits a check made on a row that has moved on past its target |
| ProjectTheorems.ConsumedExactlyOnce | src/server/projectCreationBroker.ts:230-292 | a proposal is consumed exactly when it has exactly one operation |
| ProjectHistory.ConfirmedByChallenge | src/server/projectCreationBroker.ts:230-292 | in every run an operation exists only because, in this order, its proposal was created, a challenge was issued for it, its owner confirmed it with that challenge within two minutes and before the ten minutes of the proposal were over, and that confirmation was committed |
| ProjectHistory.CreatesExactly | src/server/projectCreationBroker.ts:168-207 | a request goes on exactly when its key is new, and is inserted exactly when the evidence stands and identifier, key and name are still new |
| ProjectHistory.OpensExactly | src/server/projectCreationBroker.ts:236-251 | the first half of each call goes on exactly when the caller owns the proposal and it is open, consumed or answered with its current challenge, as the call requires |
| ProjectHistory.ConfirmsExactly | src/server/projectCreationBroker.ts:253-291 | the second half of a confirmation makes the operation exactly when the evidence stands, the proposal is pending under the same challenge and the keys are free |
| ProjectHistory.ClaimsExactly | src/server/projectCreationBroker.ts:334-363 | a lease is given out exactly when the evidence stands, no lease of any operation is current, and the operation is neither finished nor without a phase to resume at |
| ProjectHistory.ProposalStep | src/server/projectCreationBroker.ts:168-317 | a proposal changes only by its challenge, its revocation by its owner or its confirmation, and by nothing else in the row |
| ProjectHistory.LeasedToOwner | src/server/projectCreationBroker.ts:320-363 | in every run a lease was claimed by the owner of the consumed proposal and given out for ten minutes while no lease of any operation was current |
| ProjectHistory.RowsChangeBy | src/server/projectCreationBroker.ts:320-454 | in every run a row changes only by a claim, by a lease handed back, or by an advance to a phase that may follow the row it read, asked for by the owner under the row's lease; each with its whole new row |
| ProjectHistory.AdvancesExactly | src/server/projectCreationBroker.ts:390-450 | an advance is committed exactly when the lease it read is current and still the row's, the phase may follow, and the evidence fits |
| ProjectTheorems.CompletedExactlyGranted | src/server/projectCreationBroker.ts:418-450 | an operation is completed exactly when it has a grant, which carries its stored evidence, its own root and its proposal's user |
| ProjectTheorems.ResolvesActiveGrants | src/server/projectCreationBroker.ts:456-479 | a lookup finds exactly the active grants with the given fields, and at most one |
| ProjectHistory.ActiveUntilRevoked | src/server/projectCreationBroker.ts:456-491 | in every run the grant of an operation is active exactly while no step has revoked it |
| ProjectTheorems.ProposalsAreUnique | src/server/projectCreationBroker.ts:140-151 | names differ in more than case, request keys and confirmation keys are never shared |
| ProjectFields.IdentifierExactly | src/server/projectCreationBroker.ts:785-787 | an identifier is a letter or digit and up to 127 letters, digits, points, underscores, colons, ats and hyphens |
| ProjectFields.FailureClassExactly | src/server/projectCreationBroker.ts:756-758 | a failure class is a small letter and up to 63 small letters, digits and underscores |
| ProjectFields.RootExactly | src/server/projectCreationBroker.ts:789-795 | a workspace root has that prefix, at most 512 characters, no NUL, and no `..` among its steps between slashes |
| ProjectFields.LowerExactly | src/server/projectCreationBroker.ts:140-151 | names are compared after each of the 26 capitals has become its own letter and nothing else has changed |
| ProjectTheorems.FinishedForever | src/server/projectCreationBroker.ts:338-347 | a completed operation, or one that needs reconciliation, never changes and is never leased again |
| ProjectBroker.ProjectCreationBroker.CreateProposal | src/server/projectCreationBroker.ts:168-175 | a known request key is answered with its own proposal, to its own user only |
| ProjectBroker.ProjectCreationBroker.CreateProposalInserts | src/server/projectCreationBroker.ts:176-211 | the insert, or the proposal that came first under the same key |
| ProjectBroker.ProjectCreationBroker.ConfirmCommits | src/server/projectCreationBroker.ts:253-291 | inserts the operation and consumes the proposal, or rolls both back |
| ProjectBroker.ProjectCreationBroker.ClaimTransaction | src/server/projectCreationBroker.ts:331-353 | leases the proposal's operation exactly when it is claimable and nobody holds a lease |
| ProjectBroker.ProjectCreationBroker.AdvanceTransaction | src/server/projectCreationBroker.ts:398-453 | updates the row that still carries the lease and inserts the grant, or changes no table |
| ProjectBroker.ProjectCreationBroker.ResolveGrant | src/server/projectCreationBroker.ts:456-479 | finds the active grant of a context exactly when there is one |
| ProjectWorkerSafety.PlayRegular | src/server/projectCreationWorker.ts:30-92 | the invariant of any number of interleaved worker runs and broker callers |
| ProjectWorkerHistory.PlayHistoric | src/server/projectCreationWorker.ts:30-92 | in any such run the phase of an operation is one that a run knows to be committed, and a live run with an unexpired lease still has it |
| ProjectWorkerTheorems.FurthestCheckpoint | src/server/projectCreationWorker.ts:57-66 | an operation is exactly as far as the furthest checkpoint that its runs know to be committed |
| ProjectWorkerTheorems.FinalizesAtPushed | src/server/projectCreationWorker.ts:43-56 | the finalizer is called at most once per run, for an operation that has got to `pushed`; it is no further if and only if no run of it knows a later checkpoint to be committed, and an unexpired lease rules one out |
| ProjectWorkerTheorems.AnyLeaseCanBeOvertaken | src/server/projectCreationBroker.ts:331-353 | from every reachable state there is a continuation in which an operation before `thread-started` goes to reconciliation while every run of it, started or with its lease on the way, is where it was |
| ProjectWorkerTheorems.FinalizedOncePlusRefused | src/server/projectCreationWorker.ts:43-90 | an operation is finalized at most once, not counting runs that got no checkpoint through; such a run has had its reconcile checkpoint refused once it has ended |
| ProjectWorkerTheorems.StartsUnfinished | src/server/projectCreationWorker.ts:30-40 | a run that starts with a lease its operation still carries finds it unfinished, at the phase of the lease |
| ProjectWorkerTheorems.StartsExactly | src/server/projectCreationBroker.ts:354-379 | any run finds its operation at the phase of its lease, or failed and to be retried there, if and only if no other run has committed a checkpoint past it; it finds it finished if and only if another run has finished it; an unexpired lease is still the operation's, and one that is not has a superseded token |
| ProjectWorkerTheorems.LostRunIsFenced | src/server/projectCreationBroker.ts:408-430 | once an operation no longer carries the lease of a run, or of a lease on its way, no answer to that run ever changes a table |
| ProjectWorkerTheorems.FinishedIsNotClaimed | src/server/projectCreationBroker.ts:338-347 | once an operation is finished, no lease is given out for it in any continuation |
| ProjectWorkerRules.BrokenRunRule | src/server/projectCreationWorker.ts:77-90 | in any interleaving, when the executor of a live run throws, one of its checkpoints is refused, its finalizer throws or done comes early, and its next checkpoint is committed, the operation needs reconciliation if the last phase the run has attempted is `remote-created`, `thread-started` or `completed`, and is to be retried at the phase it had otherwise |
| ProjectWorkerRules.CheckpointRule | src/server/projectCreationWorker.ts:42-90 | what every committed answer to a run makes of its operation, in terms of the last event and the last attempt of the run in the moves |
| ProjectWorkerRules.StartsAs | src/server/projectCreationWorker.ts:30-41 | a lease for a started thread only completes it; any other starts the adapter at its phase |
| ProjectWorkerRules.EventTakes | src/server/projectCreationWorker.ts:42-75 | where each event takes a live run: a report, a reported failure, the finalizer, its recovery or its end; after a recorded end any event ends it and asks for nothing |
| ProjectWorkerRules.FinalizerTakes | src/server/projectCreationWorker.ts:46-50 | what the finalizer reports is what the run registers; a finalizer that throws breaks it |
| ProjectWorkerRules.AnswerTakes | src/server/projectCreationWorker.ts:48-90 | what a committed or a refused answer makes of the run, by what it was asked for |
| ProjectWorkerRules.BecomesRetryable | src/server/projectCreationWorker.ts:64-90 | an operation becomes retryable only through a run that has reported a failure that needs no reconciliation, or whose last attempt was none of these three phases |
| ProjectCounterexample.StaleRunFinalizes | src/server/projectCreationWorker.ts:43-50 | a concrete run in which the finalizer is called for an operation already sent to reconciliation |
| ProjectCounterexample.LateRunStarts | src/server/projectCreationBroker.ts:354-368 | a concrete run in which a lease arrives, and its adapter is started, after another run has sent the operation to reconciliation |
| ProjectCounterexample.StaleAdvanceMovesBack | src/server/projectCreationBroker.ts:408-430 | a concrete run of the broker in which one of two advances under way brings an operation from `remote-created` back to `local-prepared` |
| ProjectRun.WorkerRun.OnAdapterEvent | src/server/projectCreationWorker.ts:42-75 | the event callback up to its first await |
| ProjectRun.WorkerRun.OnAdvanceAnswer | src/server/projectCreationWorker.ts:48-90 | what the callback and the catch do with an advance's answer |
| JsonScanTheorems.PrintedIsAccepted | src/server/projectDeviceManifest.ts:115-185 | the text of a JSON value, with any whitespace, escapes and number spellings, is accepted exactly when no node is deeper than 64 and no object repeats a decoded name, and is then read back whole |
| JsonScanTheorems.AcceptedIsPrinted | src/server/projectDeviceManifest.ts:115-185 | every accepted text is the text of such a value |
| JsonSpelling.DecodesExactly | src/server/projectDeviceManifest.ts:131 | a piece of a name is well formed and decodes to a code unit exactly when it is a spelling of it: itself, one of the eight short escapes, or its four base-16 digits in either case |
| JsonSpelling.RepeatedNamesRefused | src/server/projectDeviceManifest.ts:138-153 | the text of a value is accepted, and read whole, exactly when it is at most 64 levels deep and no object in it has two members that spell one name |
| JsonSpelling.WhitespaceExactly | src/server/projectDeviceManifest.ts:119-121 | the skipped whitespace is the white space and the line terminators of ECMA-262 |
| ManifestScanner.Scanner.Accepts | src/server/projectDeviceManifest.ts:115-185 | the scanner with its moving position terminates and accepts exactly that |
| ManifestScanner.Scanner.ParseString | src/server/projectDeviceManifest.ts:122-137 | finds the closing quote, decodes, and leaves the position behind it |
| ManifestScanner.Scanner.ParseMembers | src/server/projectDeviceManifest.ts:141-158 | the member loop with its set of decoded keys |
| JsonText.StringifyInjective | src/server/appPublicationRequester.ts:344-351 | `JSON.stringify`, with its escapes and lone surrogates, is injective |
| JsonText.StringifyReadsBack | src/server/projectDeviceManifest.ts:115-185 | a value of at most 64 levels is what the scanner reads in its text |
| JsonText.TextWritten | src/server/appPublicationRequester.ts:344-351 | each unit of a text is written as `JSON.stringify` does: by its short escape where there is one but for the slash, by four lower-case digits when it is another control or half a pair, else as itself |
| StableJson.StableTextDecides | src/server/appPublicationRequester.ts:344-351 | two values have the same stable text exactly when they are the same value up to member order, for any total order of names |
| StableJson.UnitOrderIsTotal | src/server/appPublicationRequester.ts:347 | names compared unit by unit are in a total order, so there is an order that the two rows around this one speak of |
| StableJson.StableIsCanonical | src/server/appPublicationRequester.ts:344-351 | the stable text is the text of the canonical value |
| AppPublication.OneRequestPerKey | src/server/appPublicationRequester.ts:100-156 | each user, workspace and key has at most one request |
| AppPublication.RepeatsOrConflicts | src/server/appPublicationRequester.ts:100-156 | after a creation, every answer for its key repeats the first request when the specification is the same up to member order, and is a conflict exactly when it is not |
| AppPublication.CreationComesFirst | src/server/appPublicationRequester.ts:117-156 | a repetition or a conflict follows the creation of its key |
| AppPublication.CreatedExactly | src/server/appPublicationRequester.ts:126-156 | the transaction creates the request exactly when its id and its key are free, and otherwise answers by the row that has the key |
| AppPublication.AnsweredAtOnce | src/server/appPublicationRequester.ts:100-124 | a create is answered before its transaction exactly when it is not admitted or its key is known |
| AppPublication.AppPublicationRequester.CreateRequest | src/server/appPublicationRequester.ts:100-124 | `create` up to its transaction |
| AppPublication.AppPublicationRequester.InsertRequest | src/server/appPublicationRequester.ts:126-156 | the transaction, and the second lookup behind a rolled back insert |
| Sse.LiveDeliversAll | src/client/sessionApi.ts:414-431 | whatever events and keepalives are written and however their text is cut, the live client delivers exactly the events in order, with nothing left over |
| Sse.BatchDeliversAll | src/client/sessionApi.ts:360-381 | the batch client delivers the same |
| Sse.TextsDetermineEvents | src/client/sessionApi.ts:426-429 | the delivered texts determine the events |
| Sse.ChunksMakeNoDifference | src/client/sessionApi.ts:414-431 | for any text and any cut, the live client has delivered the complete frames and keeps the rest |
| Sse.WireFormat | server/index.ts:637-640 | the lines of a frame and of a keepalive, character by character |
| Sse.TrimExactly | src/client/sessionApi.ts:360-381 | trimming takes the whitespace at both ends, all of it and nothing else |
| Sse.ResponseStream.WriteEvent | server/index.ts:637-640 | the frame of an event |
| Sse.ResponseStream.WriteKeepalive | server/index.ts:487 | the keepalive frame |
| Sse.LiveReader.OnChunk | src/client/sessionApi.ts:418-430 | one turn of the live client's loop |
| JsonLines.StringifyIsOneLine | server/index.ts:639 | the text of a JSON value is one line that neither begins nor ends with whitespace, which the framing relies on |
| JsonlReader.StreamAgreesWithBatch | src/server/codexRunner.ts:477-498 | however the output is cut, also inside a CR LF, the events and the thread id of the stream reader and its final flush are those of the batch reader |
| JsonlReader.StreamReadsCompleteLines | src/server/codexRunner.ts:490-498 | after any chunks the stream reader has read the complete lines and keeps the last one |
| JsonlReader.EventsAreLines | src/server/codexRunner.ts:477-498 | the events are what the trimmed lines mean, in order, where that has a message or a thread id |
| JsonlReader.LastThreadExactly | src/server/codexRunner.ts:477-498 | the thread id is the one of the last event that has one |
| JsonlReader.CodexRun.OnStdout | src/server/codexRunner.ts:249-257 | the data handler |
| JsonlReader.CodexRun.OnClose | src/server/codexRunner.ts:276-282 | the final flush |
| ReplayStore.RefusedExactly | src/server/controlledOperationReplayStore.ts:39-93 | an attempt inside its window, with a well-formed nonce and room in the pruned store, is refused as a replay exactly when its nonce was accepted no more than ten minutes before |
| ReplayStore.RefinesUnboundedStore | src/server/controlledOperations.ts:81-89 | when no grant is consumed after its expiry, the attempts that get past their checks are answered one by one as by a store that forgets no nonce and is given just these attempts |
| ReplayStore.PassesExactly | src/server/controlledOperationReplayStore.ts:39-46 | an attempt is accepted or refused as a replay exactly when it gets past its checks |
| ReplayStore.MemoryReplayStore.ConsumeNonce | src/server/controlledOperations.ts:81-89 | the store that forgets nothing, as the object it is |
| ReplayStore.AcceptedTwiceOnlyLate | src/server/controlledOperationsBroker.ts:80-88 | a grant is accepted twice only when the second consumption is more than ten minutes later, after the window in which it was verified |
| ReplayStore.NeverTooMany | src/server/controlledOperationReplayStore.ts:39-44 | the store never holds more than 10,000 records |
| ReplayStore.DelayAcceptsTwice | src/server/controlledOperationsBroker.ts:80-88 | a concrete delay that lets a grant through twice |
| ReplayStore.DurableReplayStore.PruneExpired | src/server/controlledOperationReplayStore.ts:80-93 | removes exactly the old records, entry by entry |
| ReplayStore.DurableReplayStore.ConsumeNonce | src/server/controlledOperationReplayStore.ts:39-78 | prunes, then refuses a full store or a known nonce, then records |
| ReplayStore.ControlledOperationsBroker.ExecuteGrant | src/server/controlledOperationsBroker.ts:80-88 | the last verification, then the consumption |
| Retention.RetainedOnce | src/server/statePersistence.ts:194-289 | with distinct ids, retention is idempotent at one time |
| Retention.WaitsSurvive | src/server/statePersistence.ts:256-269 | active waits survive, and of the others no dropped one inside the window is newer than a kept one |
| Retention.WaitsKeptExactly | src/server/statePersistence.ts:256-269 | of any waits, also of several with one id, exactly the last active record of each id survives, and the newest of those that are over fill what is left of the limit |
| Retention.SessionsSurvive | src/server/statePersistence.ts:194-243 | a session survives exactly when it is one of the newest, as many as the limit, of those that are alive or inside the window |
| Retention.DeviceRecordsSurvive | src/server/statePersistence.ts:194-243 | a request, approval or operation survives exactly when it is one of the newest, as many as its own limit, of those inside the window |
| Retention.ArtifactsSurvive | src/server/statePersistence.ts:244-255 | an artifact survives exactly when a retained record names it or it is one of the newest others inside the window that the limit still holds |
| Retention.EventsSurvive | src/server/statePersistence.ts:271-275 | the events kept are the last ones, as many as the limit, of kept sessions |
| Retention.ReferencedArtifactsSurvive | src/server/statePersistence.ts:244-255 | an artifact named by a retained request, approval or operation survives |
| Retention.EventsOfKeptSessions | src/server/statePersistence.ts:271-275 | stream events are kept of kept sessions only |
| Retention.RetainedSizes | src/server/statePersistence.ts:194-289 | no list is longer than its limit, or than the active waits or the referenced artifacts that are protected |
| Retention.LegacyTimeoutBlocked | src/server/statePersistence.ts:168-192 | the sessions whose last two terminal messages are a timeout and a failure |
| DeviceBridgeTheorems.ChainIsInjective | src/server/sessionService.ts:1324-1500 | operations map injectively to consumed approvals and these to approved requests, all of one scope |
| DeviceBridgeTheorems.ConsumedIsUsed | src/server/sessionService.ts:1324-1500 | an approval is consumed exactly when it has an operation, a request is approved exactly when it has an approval |
| DeviceBridgeTheorems.DestructiveIsEarned | src/server/sessionService.ts:1641-1683 | a write is authorized only for the verified artifact on a device that matched the inventory, after its delivery, as event one |
| DeviceBridgeTheorems.PhasesMoveForward | src/server/sessionService.ts:1502-1740 | phases only move forward, and an operation that is over never changes |
| DeviceBridgeTheorems.AuthorizeAgain | src/server/sessionService.ts:1656-1661 | at any time after a granted authorization, another request is granted if and only if it comes from the same user with the same write token, the bridge is up and no outcome has been recorded since; it changes nothing |
| DeviceBridgeTheorems.ReportAgain | src/server/sessionService.ts:1694-1699 | at any time after a recorded report, another report is answered with yes if and only if it comes from the same user with the same write token and outcome and the bridge is up; it changes nothing |
| DeviceBridgeTheorems.OtherOutcomeRefused | src/server/sessionService.ts:1700-1709 | no later report of the other outcome is ever recorded |
| DeviceBridgeHistory.OutcomeIsReported | src/server/sessionService.ts:1685-1721 | in every run an operation is completed exactly when a step was a granted report of it as completed, and failed with a write token exactly when a step was a granted report of it as failed |
| DeviceBridgeHistory.PhaseIsReached | src/server/sessionService.ts:1428-1683 | in every run each earlier phase of an operation was reached exactly by its own step: started, probed with or without a match, confirmed, delivered, authorized, by its owner, in time, on the same device and artifact |
| DeviceBridgeHistory.DeadlinesCount | src/server/sessionService.ts:1478-1679 | in every run the deadlines of an operation are fifteen and five minutes from its start, one from its confirmation and two from its authorization |
| DeviceBridgeHistory.ChallengeIsSpent | src/server/sessionService.ts:1673-1681 | in every run an authorized operation has no challenge left |
| DeviceBridgeHistory.OperationIsAdmitted | src/server/sessionService.ts:1324-1500 | in every run an operation was requested, approved and started by its owner, in this order, each within five minutes of the one before, on the same device and artifact |
| DeviceBridgeHistory.AdmittedExactly | src/server/sessionService.ts:1324-1500 | nothing more is asked of an approval or of a probe |
| DeviceBridgeHistory.QuotaIsExact | src/server/sessionService.ts:1185-1321 | a request is taken exactly while fewer than three of its session and five of its user are waiting |
| DeviceBridgeTheorems.UnsavedStepsVanish | src/server/sessionService.ts:1723-1740 | every run ends as the run of its saved steps alone, with memory equal to the disk |
| DeviceBridgeTheorems.RunSound | src/server/sessionService.ts:1324-1740 | the invariant of the chain over every run |
| DeviceBridgeService.BridgeState.ApproveRequest | src/server/sessionService.ts:1324-1427 | approves a request once, saved before it is remembered |
| DeviceBridgeService.BridgeState.StartDeviceProbe | src/server/sessionService.ts:1428-1500 | consumes an approval and creates its operation |
| DeviceBridgeService.BridgeState.SubmitDeviceProbe | src/server/sessionService.ts:1502-1571 | verifies or fails an operation |
| DeviceBridgeService.BridgeState.DeliverArtifact | src/server/sessionService.ts:1603-1640 | hands the artifact out and arms the write |
| DeviceBridgeService.BridgeState.AuthorizeWrite | src/server/sessionService.ts:1641-1683 | authorizes a write, or repeats its authorization |
| DeviceBridgeService.BridgeState.ReportWrite | src/server/sessionService.ts:1685-1721 | records an outcome, or repeats it |
| MarkerWindow.FlaggedWhenSeen | src/client/serialRuntimeVerifier.ts:74-83 | whatever the chunks, a required marker is flagged exactly when the window has held it after some chunk |
| MarkerWindow.FlaggedExactly | src/client/serialRuntimeVerifier.ts:74-83 | when every chunk leaves room for a marker in the window, the marker is flagged after each chunk exactly when it occurs in the stream so far |
| MarkerWindow.ReliableExactly | src/client/serialRuntimeVerifier.ts:76-79 | for all streams of chunks up to a length a marker is flagged exactly when it occurs, if and only if it is empty, the length is zero, or chunk and marker less one character fit in the window |
| MarkerWindow.LongChunkHidesMarker | src/client/serialRuntimeVerifier.ts:76-79 | for every longer chunk and every marker there is a stream that contains the marker and never has it flagged |
| MarkerWindow.StageWhenSeen | src/client/serialRuntimeVerifier.ts:80-82 | whatever the chunks, the stage is the largest index whose marker the window has held after some chunk, or -1 |
| MarkerWindow.StageExactly | src/client/serialRuntimeVerifier.ts:80-82 | when every chunk leaves room for every stage's marker, the stage is the largest index whose marker has occurred, or -1 |
| MarkerWindow.SerialVerifier.OnChunk | src/client/serialRuntimeVerifier.ts:74-84 | flags markers in place and advances the stage |

## Left out

- The result codes of `register` and `reopenSessionWait`, and the texts of published messages and audit entries: only what they announce and whether it is durable is modelled.
- The identity of wait and session objects: a wait is found by its id, a session by its id; a wait that has left the list is modelled by its missing id.
- The acknowledgement that `completeRunner` waits for: a completion may arrive at any time, which allows more runs than the code does.
- The other writers of a session (`recoverSession`, managed attach, user runs) in the coordinator's model: sessions change only through the coordinator, its close and its reopening.
- The sanitizing of loaded states except that a running session becomes ready; retention on save is modelled on its own in `Retention`.
- ApprovalTheorems.CompletedOnce: per continuation and run only while the runner does not reuse a run id for two waits, because the code does not keep more; CompletesAgainExactly says when it does not.
- ApprovalTheorems.CommitOrRestore: two lifecycle changes of the session service stay in memory when their save throws; these steps are excluded by name, and CommitsOrRestoresExactly says that they are the only ones.
- ApprovalService.ApprovalCoordinator.NextId: the identifiers that concurrent registrations have reserved are not modelled, because reserving and inserting are one step here; a candidate that the code skips for that reason is one the step is not given.
- The moment between `lifecycle = 'closed'` in the session service (sessionService.ts:987) and the session lock that its close queues for: closing a session is one step.
- ProjectWorkerTheorems.StartsUnfinished: for a lease that its operation still carries; StartsExactly says what a run finds otherwise.
- ProjectTheorems.PhaseNeverMovesBack: for holders that advance one call at a time; MovesBackExactly says what happens otherwise.
- ReplayStore.RefinesUnboundedStore: for attempts that consume no later than their grant expires; DelayAcceptsTwice consumes one millisecond later.
- Retention.SessionsSurvive: for sessions with distinct ids, which is what the server creates; so for EventsSurvive, and with an event limit above zero, which is what the configuration allows.
- ApprovalFields.FieldExactly: for text in the basic plane; other characters are one character here and two code units there.
- MarkerWindow.StageExactly: for chunks that leave room for every marker; StageWhenSeen says what the stage is otherwise.
- MarkerWindow.FlaggedExactly: for chunks that leave room for the marker; FlaggedWhenSeen says what is flagged otherwise.
- Flags, roles and allowlists of the broker, the request parser, the SQLite migration and the audit table: a call is either admitted or is no step.
- Joining a workspace root with a project name is concatenation with a slash, which is what it is for the names the parser admits.
- The process that a worker spawns, its output limits and its exit code: its events, its return and its failures are arbitrary.
- The final `JSON.parse` of the manifest: it can only refuse more, namely whitespace that the scanner's `\s` allows and JSON does not.
- `localeCompare` as an order of names: the order is a parameter that has to be total, which `localeCompare` is on the ASCII names of specifications.
- The meaning of one line of runner output: `parseCodexEvent` is a parameter.
- Splitting bytes into characters: chunks are chunks of decoded text.
- File permissions, foreign files in the replay directory, and grant fields other than nonce and window.
- Audit events, quotas on artifacts, descriptor observations and inventory management around the device bridge; artifacts, bindings and sessions are what a call finds.
- The deadline, the overrun recovery and the error texts of the serial verifier.
- HTTP routing, authentication, the React client, process isolation and the continuation dispatcher of the session service: plumbing around these cores.
