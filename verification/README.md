# Deployment, egress guard and closeout: a verified model

This project models five pieces of the repository's tooling and proves what they promise.

* **The switch transaction** (`SwitchTable`, `JournalText`, `DeployRuns`, `DeploySafety`, `DeployRecovery`,
  `DeployForward`, `DeployFailure`, `SwitchSite`). A deployment replaces many objects, each with a production, a candidate and a backup path, behind a
  write-ahead journal, and recovers from any interruption by comparing contents. `DeployRuns` is the whole deployer as a
  state machine: any number of processes, each of which may die or see a call fail - also after it took effect - at any
  step, of the transaction, of the rollback or of the completion. `SwitchSite` is the code itself: a journal object that
  appends to its file, and the switching, rollback and completion loops that change the disk. The journal is the
  characters of its file; every append may be cut anywhere.
* **The egress guard** (`EgressEvidence`, `EgressGuard`, `EgressRuns`, `EgressCalls`, `EgressTables`, `EgressHandshake`). One round of the
  guard is a class whose dictionaries the round updates, proved against a function of its memory; `EgressRuns` proves what
  holds over all runs of rounds that raise anywhere, clean-ups cut short, and killed and restarted guards. The kernel
  filter is modelled packet by packet. `EgressHandshake` adds the second host and the clock.
* **The closeout** (`Closeout`). Gate run, deployment check, branch advance, cleanup and push behind write-once files, with
  calls that die anywhere and a remote that others move. Every check that passes is an event of the history, so that what
  may happen only behind an approval is a property of histories.
* **Two loops over text and paths** (`CodeOnly`, `WorkspaceTransition`) and one recursive compaction (`EventMetadata`).

Faults are data: every call takes a value saying whether it succeeds, is refused, or fails after taking effect, and every
sequence of calls takes the number of calls that succeed before one raises. All theorems hold for every such value. Times
are on one clock, in nanoseconds. Digests are injective. What is used of JSON is stated as `JournalText.Sound`: records
round-trip, and a text that opens with a brace is read only if its brackets and quotes close; `JournalText.SoundExists`
constructs such a codec from any injective numbering of records, which is taken as given: records are finite data.

## Where code and documentation part

* A torn last line is described as the same as a marker that was never written
  (`tools/arm64_supervised_deploy.py:4436-4438`). That holds until another append completes behind it; from then on the
  whole journal is refused. `JournalText.TearingRefusedExactly` says exactly when, and `DeployRecovery.StuckReachable` is
  a run into that state.
* A deletion is said to require a regular file before (`tools/changeset5_workspace_baseline.py:320`). The generator marks
  every path that is now absent as a permitted deletion; the validator refuses those that were not frozen as regular.
  `WorkspaceTransition.GeneratedAccepted` says exactly when the two agree.
* `run_gates` never finishes gates whose recorded exit code is not zero (`Closeout.Site.RunGates`); `run_action` does
  not look at the recorded exit code again, so an action that failed is finished by a later call if its result checks out
  (`Closeout.Site.RunAction` says exactly when, `Closeout.FailedCheckFinishes` is such a sequence of calls).
* A container snapshot also ends with an error when listing the containers fails, not only when an inspection fails with
  none of them gone (`EgressTables.TakeSnapshot`).

## Where a guarantee ends

That an old probe never admits a new container (`tools/arm64_supervised_deploy.py:1575`) rests on nothing raising between
line 1562, which stores the inventory, and lines 1572-1573 in the turn of the changed service, which drop what was observed
before. Lines 1566-1618 update dictionaries, compare digests, catch what a probe raises and read the clock. Short of
exhausted memory, which line 1702 would catch and go on from, nothing raises there: the code does what its comment says.
`EgressRuns.OwnEvidenceAlways` is that guarantee, `EgressRuns.ProvenanceExactly` its exact boundary for an exception at any
single update, and `EgressRuns.BorrowedEvidence` shows that the boundary is not an empty condition.

## Model

| member | source | states |
|---|---|---|
| SwitchTable.SwitchKeepsInFlight | tools/arm64_supervised_deploy.py:4624-4649 | However the two calls of a switch end, the entry is left untouched, half switched or switched, nothing outside its paths changes, and success means switched |
| SwitchTable.CrashClosure | tools/arm64_supervised_deploy.py:4662-4699 | From every state an interruption can leave, old and new contents equal included, the decision is never blocked, and its action changes nothing or settles the entry |
| SwitchTable.SettledIsOld | tools/arm64_supervised_deploy.py:4666-4684 | On any disk, "no action" means exactly that production holds the old object, or nothing if there was none |
| SwitchTable.BlockedExactly | tools/arm64_supervised_deploy.py:4662-4685 | On any disk, recovery is blocked exactly if production is neither old nor new with an open way back |
| SwitchTable.ExchangeConserves | tools/arm64_supervised_deploy.py:2244-2278 | An exchange keeps the objects of the three slots, with multiplicity |
| SwitchTable.MoveConserves | tools/arm64_supervised_deploy.py:2301-2328 | So does a rename between slots |
| SwitchTable.SwitchConserves | tools/arm64_supervised_deploy.py:4624-4649 | No switch, however it ends, loses, copies or invents an object |
| SwitchTable.RecoveryConserves | tools/arm64_supervised_deploy.py:4688-4699 | No recovery action does |
| JournalText.LoadOfHistory | tools/arm64_supervised_deploy.py:4467-4528 | After any appends, each cut anywhere, loading the file's characters gives exactly what the record-level account of the history says |
| JournalText.TruncatedAnywhere | tools/arm64_supervised_deploy.py:4433-4438 | Cutting the last append anywhere yields the markers before it, plus the last one if only its line break is missing |
| JournalText.TearingRefusedExactly | tools/arm64_supervised_deploy.py:4474-4487 | A journal is refused because of tearing if and only if an append completed after an earlier one was cut |
| JournalText.RefusedAfterCut | tools/arm64_supervised_deploy.py:4474-4487 | Two appends are enough: one cut after a character, one completed behind it |
| JournalText.DamagedLineRefused | tools/arm64_supervised_deploy.py:4474-4489 | A damaged or empty line before the last always makes the load fail |
| JournalText.MarkersRead | tools/arm64_supervised_deploy.py:4495-4508 | The markers are accepted exactly if all belong to this intent and receipts are registered at most once and validly; then all of them and those receipts are returned |
| JournalText.LoadedExactly | tools/arm64_supervised_deploy.py:4488-4509 | A journal is loaded if and only if it opens with a valid intent under its own digest and everything behind is acceptable |
| JournalText.ReadExactly | tools/arm64_supervised_deploy.py:4472-4489 | Which lines can be read: all before the last are records; the last may be cut or empty behind a record, but not JSON of another kind; all records are returned |
| JournalText.LoadedStaysInside | tools/arm64_supervised_deploy.py:4352-4430 | Whatever a file says, what is loaded names only paths under its own roots without parent steps, entries group after group under names of their own, and one receipt for each client at its place |
| JournalText.DistinctPaths | tools/arm64_supervised_deploy.py:4369-4373 | Validated receipts of different clients never share a path |
| DeploySafety.StartupReads | tools/arm64_supervised_deploy.py:4788-4804 | Startup reads back the intent, and completes rather than rolls back exactly if receipts were registered |
| DeploySafety.RunInv | tools/arm64_supervised_deploy.py:3381-3528 | Every step of every process keeps the invariant of the transaction; what failing steps lead to is DeployFailure |
| DeploySafety.Atomicity | tools/arm64_supervised_deploy.py:3504-3542 | When a journal stops being active, production is all as before with no receipt written, or all new with every receipt registered in that journal on disk under its registered digest; nothing outside the entries' paths ever changed |
| DeploySafety.ReceiptImpliesNew | tools/arm64_supervised_deploy.py:3529-3531 | In every reachable state, a new receipt implies that all production objects are new and that its very content is registered in the journal |
| DeploySafety.NeverStrandedOrLost | tools/arm64_supervised_deploy.py:4662-4685 | In every reachable state, every entry can be decided and still holds exactly the objects it started with |
| DeploySafety.OneDeployer | tools/arm64_supervised_deploy.py:4324-4339 | At most one process is inside the lock and at most one journal is active, so recovery never meets a transaction in progress |
| DeployRecovery.HopelessRun | tools/arm64_supervised_deploy.py:4746-4763 | A journal that is unreadable, or whose registered receipts can no longer be completed, stays active in every run |
| DeployRecovery.ClosableExactly | tools/arm64_supervised_deploy.py:4788-4804 | An interrupted transaction can be closed by some run if and only if its journal is not in that state |
| DeployRecovery.StuckReachable | tools/arm64_supervised_deploy.py:4716-4720 | Every well-built transaction has a run into that state: its first marker is cut, the rollback completes its own marker behind it, the process dies |
| DeployRecovery.RecoveryExactly | tools/arm64_supervised_deploy.py:4788-4804 | The next process to get the lock can, by its own steps alone, roll an interrupted transaction back if no receipts are registered, and else complete it and go on to deploy, unless its journal is in that state |
| DeployForward.ReadyCommits | tools/arm64_supervised_deploy.py:3505-3528 | From every reachable state in which a process is ready, some run takes any well-built intent with free receipt paths to an end in which all objects are new and the receipts registered in its journal are on disk |
| DeployFailure.OpensExactly | tools/arm64_supervised_deploy.py:3504-3507 | A transaction opens only when a ready process publishes a well-built intent under a free name and the call takes effect; nothing else makes a journal appear or moves the state a rollback returns to |
| DeployFailure.TurnsBackExactly | tools/arm64_supervised_deploy.py:3507-3542 | A step of a transaction goes on exactly if its checks pass, its calls succeed and its marker is written in full; else it turns to the rollback |
| DeployFailure.FailureUndone | tools/arm64_supervised_deploy.py:3529-3542 | From every reachable state, after any failing step of an open transaction - check, call refused or failed late, append cut anywhere - steps of the same process alone can close the journal with production as before and no receipt written |
| DeployFailure.FailureNeverCommits | tools/arm64_supervised_deploy.py:3529-3542 | And whatever steps that process takes, it writes no receipt and closes the journal on nothing but the old state |
| DeployFailure.FailedRollbackKeepsJournal | tools/arm64_supervised_deploy.py:4716-4743 | A rollback in which a marker or a due action failed never retires the journal, whatever its process still does |
| DeployFailure.RegisteredNeverUndone | tools/arm64_supervised_deploy.py:3526-3532 | Once the process has gone on behind the registration of its receipts, none of its steps touches production again; the journal is closed only on the committed state |
| SwitchSite.LoadText | tools/arm64_supervised_deploy.py:4467-4509 | The reading loops compute the load function |
| SwitchSite.LoadMarkers | tools/arm64_supervised_deploy.py:4495-4508 | The marker loop computes the marker function |
| SwitchSite.SwitchJournal.constructor | tools/arm64_supervised_deploy.py:4459-4465 | A new journal holds exactly its intent line |
| SwitchSite.SwitchJournal.Append | tools/arm64_supervised_deploy.py:4511-4528 | What reaches the file, when the call succeeds, and that memory changes only then; unvalidated receipts change nothing |
| SwitchSite.SwitchJournal.Deliver | tools/arm64_supervised_deploy.py:4519-4522 | The write loop puts exactly the accepted prefix of the line on file |
| SwitchSite.SwitchJournal.Close | tools/arm64_supervised_deploy.py:4530-4543 | The journal leaves its active name unless the call is refused |
| SwitchSite.Site.SwitchOne | tools/arm64_supervised_deploy.py:4624-4649 | The switch of one entry computes the switch function |
| SwitchSite.Site.SwitchAll | tools/arm64_supervised_deploy.py:4652-4659 | The loop stops at the first failing call, with everything before switched, everything behind untouched and one entry in between; it succeeds exactly if no call fails |
| SwitchSite.Site.Restore | tools/arm64_supervised_deploy.py:4702-4743 | For every disk and every fault: which outcome, which markers are on file and in memory in which order, the journal's name; blocked means that neither disk nor journal is touched; every entry meets exactly its own action; from "not marked" on everything is old |
| SwitchSite.Site.UndoAll | tools/arm64_supervised_deploy.py:4721-4729 | The reverse loop gives every entry its own action, whichever others fail |
| SwitchSite.Site.UndoAndJudge | tools/arm64_supervised_deploy.py:4721-4734 | Undoing and judging again is clean exactly if no due action fails, and then everything is old |
| SwitchSite.ActionEffect | tools/arm64_supervised_deploy.py:4688-4699 | On any disk a decided action is possible: unless refused it swaps exactly the named slots and settles the entry |
| SwitchSite.AfterUndo | tools/arm64_supervised_deploy.py:4721-4734 | After a pass an entry is unsettled exactly if it was due and refused; a settled entry is not touched again |
| SwitchSite.UnsettledDrop | tools/arm64_supervised_deploy.py:4721-4734 | The number of unsettled entries drops by one for every action that takes effect |
| SwitchSite.Site.Complete | tools/arm64_supervised_deploy.py:4746-4781 | Completion is refused exactly if an object is not new or a receipt clashes or cannot be published; otherwise every receipt is on disk; no other file changes |
| SwitchSite.Site.CompleteReceipts | tools/arm64_supervised_deploy.py:4763-4774 | The receipt loop succeeds exactly if no receipt clashes or fails |
| EgressEvidence.ObservationsCompliant | tools/official_client_capture/codex_upgrade_arm64_environment_receipt.py:439-463 | The loop accepts exactly one admissible observation per source with a quorum of successes |
| EgressEvidence.SuccessesAreSources | tools/official_client_capture/codex_upgrade_arm64_environment_receipt.py:439-463 | A quorum of successes is a quorum of different sources |
| EgressEvidence.MeetsExactly | tools/official_client_capture/codex_upgrade_arm64_environment_receipt.py:439-463 | Accepted are exactly: as many observations as sources, each fresh and from a source of its own, a permitted success or a clean failure, with a quorum of different successful sources |
| EgressEvidence.EverySourceHeard | tools/official_client_capture/codex_upgrade_arm64_environment_receipt.py:439-463 | If no source is named twice, accepted observations leave none out |
| EgressEvidence.EffectiveObservations | tools/arm64_supervised_deploy.py:1361-1376 | The loop computes the choice per source |
| EgressGuard.Guard.constructor | tools/arm64_supervised_deploy.py:1446-1477 | A new guard process remembers nothing over the existing kernel table |
| EgressGuard.Guard.Step | tools/arm64_supervised_deploy.py:1544-1671 | A round changes memory and kernel leases exactly as the round function says, whichever dictionary update of whichever service, or which later call, is the first that does not happen |
| EgressGuard.Guard.RefreshOne | tools/arm64_supervised_deploy.py:1568-1598 | One service's dictionaries after the first updates of purging it or collecting its probe, in the source's order, cut after any number of them |
| EgressGuard.Guard.ServiceLoop | tools/arm64_supervised_deploy.py:1566-1618 | The service loop, cut after any number of services and any number of updates of the next one, leaves exactly what they left |
| EgressGuard.Guard.Judge | tools/arm64_supervised_deploy.py:1599-1607 | Blocked exactly if protection is lost or the service invalid; compliant exactly if neither and its observations convince to the end of the lease to be signed; else probing |
| EgressGuard.Guard.WithdrawOld | tools/arm64_supervised_deploy.py:1619-1623 | Which old leases are revoked before new ones are signed |
| EgressGuard.Guard.IssueOne | tools/arm64_supervised_deploy.py:1636-1646 | Which leases and probes one service gets |
| EgressGuard.Guard.Announce | tools/arm64_supervised_deploy.py:1619-1652 | Revocation, firewall, late check, probe tables, leases and status in this order, cut short anywhere |
| EgressRuns.LeaseSafety | tools/arm64_supervised_deploy.py:682-705 | Over all runs: a packet let out at t belongs to a valid service that a round begun less than one lease before, under intact protection, found probing (then its destination is listed) or compliant on a quorum of sources still fresh at t |
| EgressRuns.DecidedExactly | tools/arm64_supervised_deploy.py:1599-1607 | Every decision of every run covers exactly the inventory; blocked if and only if protection was lost or the service is invalid; compliant if and only if neither and one fresh admissible observation per source with a quorum of different successful sources, up to the end of the lease |
| EgressRuns.ProvenanceExactly | tools/arm64_supervised_deploy.py:1559-1598 | Stored observations stay those of the current identity over a round, wherever it raises, exactly unless it raises inside the service loop before it dropped the observations of a changed service |
| EgressRuns.NoBorrowedEvidence | tools/arm64_supervised_deploy.py:1290-1295 | Over all runs without such a round, every decision rests on probes launched for the very identity decided on |
| EgressRuns.OwnEvidenceAlways | tools/arm64_supervised_deploy.py:1566-1618 | In particular over all runs whose rounds raise anywhere but between storing the inventory and the end of the service loop |
| EgressRuns.BorrowedEvidence | tools/arm64_supervised_deploy.py:1559-1578 | The condition is not empty: if an exception did strike after the inventory is stored and before the changed service's turn, the next round would find the new container compliant on the old one's probe |
| EgressRuns.LossCloses | tools/arm64_supervised_deploy.py:1619-1625 | A completed round that found protection lost leaves no lease for any current service |
| EgressRuns.LossClosesOld | tools/arm64_supervised_deploy.py:1619-1625 | Nor for any service known before |
| EgressRuns.LossForgets | tools/arm64_supervised_deploy.py:1570-1578 | Losing protection, or an invalid service, drops every observation of it |
| EgressRuns.ChangeWithdraws | tools/arm64_supervised_deploy.py:1619-1623 | After a completed round the old keys of a service whose state or anything but its dependencies changed open nothing but what this round granted |
| EgressRuns.AdmittedGetsLease | tools/arm64_supervised_deploy.py:1636-1643 | After a completed round every key of a compliant or probing service is open by a lease of this round, to its end |
| EgressRuns.AdmittedPasses | tools/arm64_supervised_deploy.py:682-705 | And if no other service has the key, the filter then lets out its packets under its mark: all if compliant, those to probe addresses if probing |
| EgressCalls.CallOrder | tools/arm64_supervised_deploy.py:1619-1652 | Wherever a round is cut short: leases are revoked first; nothing is granted, launched or published unless it is in time, the firewall was reloaded with its states and all probe tables were brought in line or emptied; the status comes last, with those states and the end of the leases |
| EgressCalls.LateCloses | tools/arm64_supervised_deploy.py:1627-1630 | A round that outlived its lease raises and grants nothing, and closes every current service |
| EgressCalls.CleanUpCloses | tools/arm64_supervised_deploy.py:1702-1704 | The clean-up behind a failed round opens nothing and closes every known service |
| EgressCalls.ProbeTakenIn | tools/arm64_supervised_deploy.py:1568-1598 | What a finished probe leaves in memory, and when the next is due: after the interval if all sources passed, else after three seconds or the shorter interval |
| EgressCalls.ProbedExactly | tools/arm64_supervised_deploy.py:1644-1646 | After a completed round a probe is under way exactly if one still was, or the service is not blocked and its time had come; a new one is for the identity decided on |
| EgressRuns.MostRecentSuccess | tools/arm64_supervised_deploy.py:1570-1594 | Over all runs, with probes that fail, purges, rounds cut anywhere and restarts: per source the guard keeps exactly the success it received last since the service's memory was cleared |
| EgressRuns.JudgedByIt | tools/arm64_supervised_deploy.py:1361-1376 | Every logged decision of every run judges a source by that success while it is fresh to the end of the lease, else by the last answer |
| EgressTables.ProbeTable.Sync | tools/arm64_supervised_deploy.py:825-845 | The table ends up as wanted whenever that fits and no call fails, is never larger than before or wanted, and keeps what was wanted and there if cut short |
| EgressTables.TakeSnapshot | tools/arm64_supervised_deploy.py:1186-1211 | At most as many inspections as first listed containers; fails exactly on a failed listing, nonsense, or a failure with none of them gone |
| EgressTables.QueriedSurvived | tools/arm64_supervised_deploy.py:1186-1211 | What is inspected is the order-preserving intersection of all listings so far |
| EgressHandshake.WindowWithinExit | tools/arm64_supervised_deploy.py:1680-1684 | An answer never buys more trust than the exit's own lease has left |
| EgressHandshake.RemoteTrust.Collect | tools/arm64_supervised_deploy.py:1499-1510 | One pass takes the longest window of the finished requests and keeps the running ones |
| EgressHandshake.RemoteTrust.Submit | tools/arm64_supervised_deploy.py:1494-1496 | Two requests more, never above eight under way |
| EgressHandshake.RemoteTrust.Confirm | tools/arm64_supervised_deploy.py:1486-1519 | Up to two requests join those under way; the last look is the first at which trust was extended, the time is up, nothing is under way, or trust lasts another second; every valid answer to any of them by then counts, trust is bought by nothing else and never shrinks, and what is kept is what still runs; it succeeds exactly while the trust lasts |
| EgressHandshake.SubmitIsMoves | tools/arm64_supervised_deploy.py:1494-1496 | Submitting requests is sending them between the hosts |
| EgressHandshake.CollectIsMoves | tools/arm64_supervised_deploy.py:1499-1511 | The trust one pass of the loop computes is the trust left by receiving the valid answers and losing the broken requests |
| EgressHandshake.ClosingBound | tools/arm64_supervised_deploy.py:1486-1519 | With the exit's last compliant round at T, the origin's trust ends by T + L and its leases before T + 2L, for any delay, loss and reordering |
| EgressHandshake.ExchangeBuys | tools/arm64_supervised_deploy.py:1499-1511 | An answered request buys exactly the whole milliseconds the exit had left, from when it was sent |
| EgressHandshake.SilentExit | tools/arm64_supervised_deploy.py:1655-1703 | An exit that failed or lost its protection answers nothing until a good round; only answers already under way can still be believed |
| EgressHandshake.RestartForgets | tools/arm64_supervised_deploy.py:1470-1471 | A restarted origin signs nothing before a new answer has arrived |
| EgressHandshake.BoundReached | tools/arm64_supervised_deploy.py:1508-1519 | That bound is reached to the tick |
| Closeout.StartedOnce | tools/codex_closeout.py:1482-1523 | No process of a plan is started twice |
| Closeout.WrittenOnce | tools/codex_closeout.py:1155-1160 | No step file is written twice |
| Closeout.FinishedInOrder | tools/codex_closeout.py:1540-1612 | Gates, deployment check, integration, cleanup, push and publication finish in this order |
| Closeout.PushComesLast | tools/codex_closeout.py:1593-1603 | A push starts right after it was announced with the remote at the expected tip, and after all four steps before it |
| Closeout.PublishedWasSeen | tools/codex_closeout.py:1594-1612 | A finished publication means the remote was seen at the candidate after the push was announced |
| Closeout.ApprovedFirst | tools/codex_closeout.py:1535-1558 | The deployment check, the advance of the branch, the cleanup and the push happen only after the same call found the plan unchanged, the approvals given and the gates' evidence intact |
| Closeout.AdvancedOnlyIf | tools/codex_closeout.py:1559-1582 | The branch advances only after the same call also proved the deployment, read candidate and material again and asked for the approvals again |
| Closeout.CleanedOnlyIf | tools/codex_closeout.py:1482-1500 | The cleanup is run only after the same call also compared the branch with the candidate and found the cleanup approved, its context unchanged and no result there |
| Closeout.PushedOnlyIf | tools/codex_closeout.py:1587-1603 | The push is made only after the same call also loaded the plan and asked for the approvals once more and, unless deferred, proved the cleanup |
| Closeout.Site.WriteOnce | tools/arm64_capture_driver/driver/fix_safety.py:66-88 | A file is created once or matched; it never changes |
| Closeout.Site.RunGates | tools/codex_closeout.py:1392-1448 | Keeps history orderly wherever it dies; does nothing if the plan or the preflight fails; finished gates are only checked, started ones finished exactly if their evidence and the plan hold and no failure is on file, untouched ones run and finished on exit code zero |
| Closeout.Site.RunAction | tools/codex_closeout.py:1482-1523 | Keeps history orderly wherever it dies; a finished action is only checked; a started one is finished exactly if its result checks out; an untouched one is run and finished only on exit code zero; a deferred cleanup runs nothing |
| Closeout.FailedCheckFinishes | tools/codex_closeout.py:1499-1523 | Two calls of publish after which a deployment check with exit code 1 on file is finished |
| Closeout.Site.Advance | tools/codex_closeout.py:1575-1586 | The branch only moves from base to candidate, behind its own file |
| Closeout.Site.FirstPush | tools/codex_closeout.py:1598-1605 | A push that was never announced is announced, made and confirmed |
| Closeout.Site.PushOnce | tools/codex_closeout.py:1593-1606 | An announced push is never repeated, only confirmed |
| Closeout.Site.Publish | tools/codex_closeout.py:1535-1619 | Keeps history orderly wherever it dies and however the remote moves; without approvals and gates nothing happens, and each later check that fails keeps everything behind it from happening, check by check; success means the remote is at the candidate; publishes if nothing goes wrong |
| Closeout.Site.Republish | tools/codex_closeout.py:1541-1551 | A repeated publication writes no file and starts no process; it succeeds exactly if branch and remote are seen at the candidate and all evidence holds |
| Closeout.AnyCalls | tools/codex_closeout.py:1392-1619 | Any sequence of calls keeps history orderly and every file as written |
| CodeOnly.CodeOnly | tools/check_changeset5_0145_symbols.py:20-82 | The in-place loop computes the recursive lexer |
| CodeOnly.OneToken | tools/check_changeset5_0145_symbols.py:25-81 | One round of the loop is one token |
| CodeOnly.KeptOrBlanked | tools/check_changeset5_0145_symbols.py:21 | Same length, line breaks exactly where they were, every other character kept or blanked |
| CodeOnly.LexedIsClean | tools/check_changeset5_0145_symbols.py:20-82 | No quote and no comment opener is left |
| CodeOnly.UnchangedExactly | tools/check_changeset5_0145_symbols.py:20-82 | A source is unchanged if and only if it had none |
| CodeOnly.Idempotent | tools/check_changeset5_0145_symbols.py:20-82 | Applying it twice is applying it once |
| CodeOnly.InPieces | tools/check_changeset5_0145_symbols.py:20-82 | A source may be read line by line, carrying the state along |
| CodeOnly.LiteralIsBlank | tools/check_changeset5_0145_symbols.py:67-81 | A whole literal, escapes included, is blank except for its line breaks, and code goes on behind it |
| CodeOnly.LineCommentEnds | tools/check_changeset5_0145_symbols.py:49-55 | A line comment is blank up to its line break, and code goes on behind |
| CodeOnly.BlockCommentEnds | tools/check_changeset5_0145_symbols.py:57-66 | A block comment is blank up to its first end mark except for its line breaks, and code goes on behind |
| CodeOnly.InsideIsBlank | tools/check_changeset5_0145_symbols.py:46-81 | The inside of every literal and comment is blank except for its line breaks, and reading goes on in the same state |
| WorkspaceTransition.SortByPath | tools/changeset5_workspace_baseline.py:306 | A sorted permutation |
| WorkspaceTransition.BuildTransition | tools/changeset5_workspace_baseline.py:273-337 | Fails exactly on an irregular path; else records exactly the differences, sorted, with the counts |
| WorkspaceTransition.ValidateTransition | tools/changeset5_workspace_baseline.py:401-481 | Accepts exactly if every frozen path is unchanged and unrecorded or recorded with its true change, and the receipt matches |
| WorkspaceTransition.GeneratedAccepted | tools/changeset5_workspace_baseline.py:273-481 | What is generated is accepted if and only if the baseline has the fixed number of distinct paths and no path frozen otherwise than regular has vanished |
| WorkspaceTransition.AcceptedIsTrue | tools/changeset5_workspace_baseline.py:401-481 | What is accepted is true and complete: every entry is a real difference, every difference has one, every frozen path can be read, and the receipt holds the real numbers of changed, unchanged and deleted paths |
| WorkspaceTransition.RefusedElsewhere | tools/changeset5_workspace_baseline.py:442-456 | An accepted transition is refused in every workspace that differs at one frozen path |
| WorkspaceTransition.OddDeletionExample | tools/changeset5_workspace_baseline.py:301 | A baseline on which generator and validator disagree |
| EventMetadata.BoundedExactly | tools/arm64_supervised_deploy.py:3032-3065 | The result has no value at layer 4 and no list above 32, is the input exactly if that met both bounds, and is not changed again |
| EventMetadata.CompactStandsFor | tools/arm64_supervised_deploy.py:3051-3063 | Every part of the result is the part it stands for, its digest, or its length and digest, under the same field names in the same order |
| EventMetadata.CompactTellsApart | tools/arm64_supervised_deploy.py:3051-3063 | Different facts keep different compactions |

## Left out

- Power loss: a process that dies keeps the characters already written; loss of unsynced data is not modelled.
- Path checks that compare devices, owners and modes, and the `chown` and `chmod` after a switch: a switch that fails there is the case "failed late".
- The name a retired journal gets, and the reasons and lists written into markers: no later step reads them.
- While a transaction is open nothing but the deployers changes its paths or the receipts; between transactions anything may.
- Entries are pairwise disjoint by the construction of their paths; `_validate_intent` does not check this and the model states it where the intent is written.
- The checks before the intent, the staging of candidates and the contents of receipts: free choices of the environment.
- SwitchSite.SwitchJournal.constructor: validation of the intent happens before it and is `JournalText.ValidIntent`; the exclusive link by which the file appears is one step.
- EgressRuns.NoBorrowedEvidence: assumes that no round is disrupted inside the service loop, because with one it is false; ProvenanceExactly gives the exact condition, OwnEvidenceAlways a condition on where rounds raise.
- EgressRuns.LeaseSafety: says nothing about the wall clock being set; rounds read one clock that does not run backwards.
- The content of the probe table during a round: LeaseSafety holds for every table, and how the table is brought in line is ProbeTable.Sync.
- Firewall, WireGuard, routes, DNS, Docker and the probing of addresses: their outcome is a value a round is given.
- `blocked_since`, `last_compliant`, the status file and the event log of the guard: written, never read for a decision.
- The resolver of probe addresses: the set of addresses is given.
- EgressHandshake.RemoteTrust.Confirm: time passes and does not run backwards, and a finished request keeps its answer; the method is tied to the moves of the two hosts pass by pass (SubmitIsMoves, CollectIsMoves); what the exit does while the origin waits between two passes is any move of the exit.
- EgressHandshake.ClosingBound: the two hosts share one clock rate; the health server's checks of path and schema are not modelled.
- What the checks of a closeout look at (gate evidence, approvals, bindings, material): each is an answer the call is given and an event of the history; files of another plan are not modelled.
- Calls of a closeout are one after another, as the run lock makes them; only the remote moves in between.
- Paths of a transition are numbers in string order, and 558 is a parameter; the constant fields of manifest and receipt are one flag.
- Keys of event metadata are strings, so two keys never become one.
- Configuration loading, policy validation, the scan for identifiers and the other audit scripts: field-by-field checks with no deep property.
