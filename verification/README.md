# Verification of the wedding platform's state machines and codecs

A Dafny model of the parts of the platform that must stay correct while workers crash, leases expire and
the database is rolled back under stores that are not: admission passes and their independent ledger, RSVP
capacity, storage and allowance accounting, uploaded media, e-mail jobs and provider events, the archive,
backup and CSV codecs, and the table order of an erasure. `dafny verify dfyconfig.toml` checks everything.

How the pieces are modelled:

- Code that changes things step by step is a method or a class whose contracts give the whole new state,
  usually as a function of the old one; the properties are lemmas about those functions.
- What a method decides and leaves behind is also stated in the fields of rows, through predicates such as
  `Admission.Due`, `Submission.Refused` or `Quota.Affordable` that no code and no specification function uses.
- Interleavings are a state machine: `Enabled`/`Books` and `After` give each operation's step, a run is any
  sequence of operations, and the theorems hold of every run. One SQL transaction under the row locks it
  takes is one step; a write to another store, the reply, and each separate statement outside a transaction
  are steps of their own, and a call may crash between any two steps.
- Random identifiers are fresh, time is a number. SHA-256, AES-GCM and JSON are abstract functions: hashes
  have sixty-four characters, and decrypting and parsing undo encrypting and rendering
  (`BackupService.Codec.Sound`, `BackupEncryption.Suite.Sound`; `BackupExample` gives functions with these
  laws). That two names have different hashes is never assumed of all names: where it matters it is the
  condition of the theorem (`BackupService.ToldApart`).
- Every lease is taken under an owner that was never used before. That is an assumption: the worker draws one
  random owner per process (`apps/worker/src/main.ts:8`) and keeps it, but runs one call at a time, so that
  no earlier call of the same owner is still under way when it leases again.
- History variables name the steps after which a property may fail: `late` in `EmailJobs`, `stray` and `revived`
  in `MediaObjects`, `exposed` in `AdmissionRuns`, `remarked` and `stray` in `QuotaRuns`. For each of them a theorem says that these are exactly the
  steps with a continuation in which it does fail.

| files | what they model |
|---|---|
| `Admission`, `AdmissionRuns`, `AdmissionTheorems` | redeeming a pass, the ledger, backups, restores, recovery, holds |
| `Rsvp`, `RsvpService`, `Submission`, `Changes`, `Wedding` | replies, reservations, counters and passes of one wedding |
| `Quota`, `QuotaRuns`, `QuotaService` | stored and reserved bytes, daily allowances, stale media and generation workers |
| `MediaObjects` | one asset's row, objects, job and workers |
| `EmailJobs`, `Notifications` | leased sends and provider events |
| `Tar`, `TarWriter`, `TarReader`, `TarRoundTrip`, `TarTampering`, `BackupEncryption`, `BackupService`, `BackupExample`, `Csv` | the codecs |
| `ErasureOrder` | the deletion order of tables |
| `Seqs`, `Totals`, `Options` | shared sequence, sum and option facts |

## What was found

Seven expected properties do not hold of the code as it is; each has a run or an input that breaks it and a
theorem with the condition under which it holds.

- Storage is counted twice: worker 1 looks at an upload and loses its lease, worker 2 finishes the asset and
  stops before acknowledging the job, worker 1 marks the asset as processing
  (`packages/persistence/src/media.ts:67` updates whatever the state), and worker 3 takes the job and commits
  once more: `QuotaRuns.StoredTwice`. Of all steps exactly such a mark leads there, of a ready asset with bytes
  that is not deleted and whose job is still to be done: `QuotaRuns.CountedTwiceIff`. A commit conserves
  storage if and only if the row held no bytes: `Quota.CommitConservesIff`.
- A board's reservation is released twice when a worker without the lease finds the run submitted and
  releases its storage (`packages/persistence/src/creative.ts:39` does not check the lease) before the lease
  holder commits: `QuotaRuns.ReleasedTwice`. Of all steps exactly a release under an owner that has submitted
  the run and may still commit it leads there: `QuotaRuns.ReleasedTwiceIff`. Without one, the reservation read
  at the start is still the row's at the commit: `QuotaRuns.ReadReservationHolds`; `Quota.BoardConservesIff` is
  the exact condition of a commit.
- A ready asset can lose its original, because the failure path checks its lease and then deletes
  (`packages/persistence/src/media.ts:69`), or because a given-up asset is marked as processing again:
  `MediaObjects.ReadyUnbacked`, `MediaObjects.RevivedUnbacked`. `MediaObjects.SpoiltIff` says of every step
  whether it leads there: exactly those two do, and only while the asset is ready or the job's owner may make
  it ready without looking again. A commit is safe exactly if no deletion is queued:
  `MediaObjects.CommitBackedIff`.
- A message can be sent twice, because the last update of a failed attempt
  (`packages/persistence/src/jobs.ts:26`) does not check the lease: `EmailJobs.SentTwice`. That write is
  harmful exactly if the message is not settled, its job is not finished, and a call stands or is under way:
  `EmailJobs.SentTwiceIff`. As far as the rows tell, in every run, it is safe if and only if the job is finished,
  or the message is queued, rejected or settled (or the job waits and the message is linked, which never
  happens): `EmailJobs.HarmlessIff`. An error while recording an accepted submission does no
  such harm by itself, because the lease holder ends its job first.
- A seat can be admitted twice, under two passes, if its wedding was deleted while its database was restored
  to before the first pass and is recovered later, which does not reconcile the ledger
  (`packages/persistence/src/index.ts:138`): `AdmissionTheorems.SeatTwiceAfterRecovery`. Of all steps exactly
  this one leads there, and only while serving, with an admitted pass of the wedding neither known nor held and
  no hold that cannot be resolved: `AdmissionTheorems.SeatTwiceIff`. What ledger and rows tell of it is
  `AdmissionTheorems.ReviveHarmlessIff`. Per pass the guarantee is unconditional.
- An uncertain intent may be left without any open hold (`AdmissionTheorems.StuckIntentUnheld`), exactly if a
  hold of its pass was resolved before (`AdmissionTheorems.IntentHeldIff`); redemption is still refused by the
  ledger.
- A message linked to a provider's name that was linked before does not hear of the complaint or bounce already
  processed for it: `Notifications.ComplaintMissed`. `Notifications.Inbox.Submitted` says exactly when it is told
  the worst of all events.

Two round trips hold only in part: the archive writer accepts paths with dots, repeated paths and any number of
entries, which its reader refuses (`TarRoundTrip.RoundTripIff`); and a backup restores exactly if the hashes of
its names differ, the archive limits are kept and its manifest meets the schema, which creating one does not
check: an empty font directory, say, makes a backup that is refused (`BackupService.BackupRestores`).

## Model

| member | source | states |
|---|---|---|
| AdmissionTheorems.AtMostOneAdmission | packages/persistence/src/passes.ts:30-32 | in every run of issuing, redeeming, crashing, backing up, restoring and recovering, at most one actor and operation key is ever answered 'admitted' for a pass, and the ledger holds its committed record |
| AdmissionTheorems.LedgerAndDatabasesAgree | packages/persistence/src/passes.ts:31-32 | in the live database and every retained backup a pass is used exactly when it has its one admission row, and then the ledger's record has the same admission, attendee and event |
| AdmissionTheorems.CommittedForever | packages/adapters/src/admission-ledger.ts:10-13 | over every run a committed record never changes, becomes an intent again or disappears |
| AdmissionTheorems.UsedUntilRestored | packages/persistence/src/passes.ts:28-32 | without a restore a used pass never becomes anything else |
| AdmissionTheorems.RecoveryConverges | packages/persistence/src/recovery.ts:11 | after recovery each committed record of a live wedding has its pass used with the recorded admission, or an open hold keeps the whole wedding from redeeming; recovering again, in any listing order, changes nothing |
| AdmissionTheorems.IntentHeldIff | packages/persistence/src/recovery.ts:11 | an uncertain intent has an open hold after recovery if and only if no hold of that pass had been resolved before |
| AdmissionTheorems.StuckIntentUnheld | packages/persistence/src/recovery.ts:11 | a run that leaves an uncertain intent with no open hold that recovery would not change |
| AdmissionTheorems.AtMostOneAdmissionPerSeat | packages/persistence/src/recovery.ts:11 | two admitted answers for one attendee and event are the same answer, even when a restore forgot the first pass, unless the wedding came back to life in a serving system that had forgotten an admitted pass of it |
| AdmissionTheorems.SeatTwiceIff | packages/persistence/src/index.ts:138 | in every reachable state, a step leads to a seat that some continuation admits under two passes if and only if it revives, while serving, a wedding with an admitted pass that neither a row nor an open hold knows and no hold that blocks it for good |
| AdmissionTheorems.ReviveHarmlessIff | packages/persistence/src/index.ts:138 | given database and ledger, reviving a wedding while serving is harmless in every safe state with them if and only if the wedding is blocked or each committed record of it has its pass row, an open hold, or another recorded pass of the same seat |
| AdmissionTheorems.SeatTwiceAfterRecovery | packages/persistence/src/index.ts:138 | a run in which that exception happens |
| AdmissionTheorems.RetryCompletes | packages/persistence/src/passes.ts:30-32 | after an attempt that failed past its intent, the same scan can be completed with the admission it began |
| AdmissionRuns.StepSafe | packages/persistence/src/passes.ts:21-47 | every step keeps the agreement of the ledger with the live database, the backups, the calls under way and the replies given |
| AdmissionRuns.IntentGrows | packages/persistence/src/passes.ts:31 | an intent is written only for a pass that no database copy knows as used, or repeats the attempt already recorded |
| AdmissionRuns.ReconcileAgrees | packages/persistence/src/recovery.ts:11 | reconciling a record, however long ago it was read, keeps the database in agreement with the ledger |
| Admission.Service.RedeemLocked | packages/persistence/src/passes.ts:30-32 | a scan not stored before is answered in the transaction exactly as the rows make it due, case by case, and what is then written to scan, pass, admission and ledger is stated row by row; a stored scan repeats its outcome for the same credential only; refused, the transaction leaves the database alone, and at most an intent if its commit failed |
| Admission.Service.Redeem | packages/persistence/src/passes.ts:30-32 | a scan not stored before is answered `Admitted` exactly if the wedding is live and unheld, the event enabled and within its window, the pass with that credential active, its attendee neither removed nor unconfirmed, and the ledger has nothing but this same attempt; each other answer has its own exact condition; an admission leaves the pass used, its one admission and the committed record, and a stored scan repeats its outcome |
| Admission.DecideMeans | packages/persistence/src/passes.ts:31 | the decision on a scan, in row fields: which answer is due, when the ledger holds it back, and which record is written |
| Admission.LockedLeaves | packages/persistence/src/passes.ts:31 | everything the transaction of a new scan leaves behind, and that nothing else changes |
| Admission.LockedRepeats | packages/persistence/src/passes.ts:30 | a stored scan is repeated for the same credential only, and finishes the ledger record exactly if that is still this operation's intent |
| Admission.Service.Reissue | packages/persistence/src/passes.ts:29 | succeeds exactly for an unused, admissible pass of that version the ledger knows nothing about |
| Admission.Service.AdmissionState | packages/persistence/src/recovery.ts:11 | the loop over listed records equals reconciling them one after another, and recovery only adds: used passes, admissions and holds stay as they are, a pass becomes used only by a committed record of the same attendee and event, at a version neither below its own nor that of the recorded attempt |
| Admission.RecoveredAll | packages/persistence/src/recovery.ts:11 | the same of every listing, in whatever order and however often a record is listed |
| Admission.Service.ResolveHold | packages/persistence/src/operator.ts:21 | discards exactly an unused, uncommitted intent without an admission under the pass's open hold for it; a failing commit leaves the hold open |
| Wedding.Tenant.Submit | packages/persistence/src/guests.ts:34-43 | accepted exactly if the event is open, every live invited attendee of a non-empty household answers once, each from the reply and attendee as they are, no admitted person is renamed or declines, and everyone attending has a name; each refusal has its own condition, by the first response found wanting, and changes nothing; an accepted one changes replies, places, names, passes and counter as stated row by row |
| Submission.SubmitRefusalMeans | packages/persistence/src/guests.ts:35-40 | when a submission is accepted and when it is refused for which reason, in row fields |
| Submission.SubmittedMeans | packages/persistence/src/guests.ts:38-43 | what an accepted submission changes: who has a place, each reply and its version, names, passes withdrawn, printed again or untouched, and the counter |
| Submission.WaitingMeansFull | packages/persistence/src/guests.ts:41-42 | someone who attends is left waiting only if the event decides by hand or every place is taken |
| Submission.PlacedInTurn | packages/persistence/src/guests.ts:41-42 | nobody gets a place who answered after someone left waiting |
| Wedding.Tenant.Allocate | packages/persistence/src/guests.ts:41-43 | the second pass over the responses allocates places in order after every decline |
| Wedding.Tenant.ReleaseDeclines | packages/persistence/src/guests.ts:38-40 | the first pass releases exactly the declined places and passes; the refusal it reports is the reason why the first bad response is bad: a stale version, an admission not honoured, or a missing name |
| Wedding.AllocationTest | packages/persistence/src/guests.ts:37 | the length, set-size and membership test accepts exactly one response for each allocated attendee |
| Wedding.Tenant.Approve | packages/persistence/src/guests.ts:44 | confirms a pending or waitlisted answer of that version exactly when a place is left, changing that reply, place and counter only; keeps the invariants |
| Wedding.Tenant.Correct | packages/persistence/src/passes.ts:33 | corrects name or place of someone admitted, within capacity, and changes only that attendee, reply, place and counter; keeps the invariants |
| Wedding.Tenant.Remove | packages/persistence/src/guests.ts:27 | removes an attendee with all plus ones unless one was admitted: their replies are declined, their active passes revoked, their places free and counted off, and every other row of every table is as it was; keeps the invariants |
| RsvpService.RowsRemovedClean | packages/persistence/src/guests.ts:27 | in whatever order rows are removed, no reservation or active pass of theirs is left |
| RsvpService.RowsRemovedExactly | packages/persistence/src/guests.ts:27 | what removing any rows leaves in every table, row by row: versions, declined replies, revoked passes, counters, and everyone else untouched |
| RsvpService.OthersKeepTheirs | packages/persistence/src/guests.ts:27 | every reply and pass of an attendee outside the removed rows is unchanged |
| Wedding.Tenant.ReplayErasure | packages/persistence/src/recovery.ts:9 | the replay of a guest's erasure with its clamped counters is exactly a removal of that one row, without a new version, and leaves every other row as it was |
| Wedding.ClampNeverFires | packages/persistence/src/recovery.ts:9 | a counter that is decremented for a reservation is above zero |
| Wedding.Tenant.SaveEvent | packages/persistence/src/index.ts:80-85 | refuses a capacity below the confirmed count and a change of policy or window after an admission; otherwise the row is as saved, active passes of the event are revoked when passes are disabled and printed again when what they show changes, and no other row changes; keeps the invariants |
| Wedding.Tenant.AddEvent | packages/persistence/src/index.ts:82 | a new event starts with no place taken; keeps the invariants |
| Wedding.Tenant.SaveGuest | packages/persistence/src/guests.ts:18-26 | accepted exactly if the events exist, the guest is live, of that version and no plus one, an admitted name stays, and, once anyone concerned has answered, household, invitations and plus ones stay and cover the answers; then every attendee, invitation and pass is as stated row by row; keeps the invariants |
| Wedding.Tenant.CheckGuest | packages/persistence/src/guests.ts:18-26 | the checks in their order refuse exactly the saves that are not acceptable |
| Wedding.Tenant.Invite | packages/persistence/src/guests.ts:18-26 | a new attendee is invited exactly if the events exist; keeps the invariants |
| Wedding.Tenant.Issue | packages/persistence/src/passes.ts:23 | issued exactly to someone living, confirmed and with a place at an event that uses passes, found again while active, refused after that |
| Wedding.Tenant.Revoke | packages/persistence/src/passes.ts:28 | only an active pass of that version is revoked |
| Wedding.Tenant.Sweep | packages/persistence/src/passes.ts:47 | exactly the active passes whose admission has ended expire |
| Wedding.Tenant.Admit | packages/persistence/src/passes.ts:31 | an active pass is always that of someone living, confirmed and with a place, and becomes used with its admission |
| Wedding.Tenant.ReplayAdmission | packages/persistence/src/recovery.ts:11 | a replayed admission makes any unused pass used with its admission |
| Wedding.Tenant.Quarantine | packages/persistence/src/recovery.ts:12 | every active pass is revoked with its version raised, and every other pass is as it was |
| Rsvp.SubmittedKeeps | packages/persistence/src/guests.ts:34-43 | after an accepted submission each counter equals its reservations within capacity, replies are confirmed exactly when reserved, and active passes belong to the entitled |
| Rsvp.SubmittedReply | packages/persistence/src/guests.ts:41-42 | a reply is confirmed exactly when its place is reserved, answered in this submission or not |
| Rsvp.PlacedCount | packages/persistence/src/guests.ts:39-41 | new confirmations are the smaller of the unreserved attending answers and the places left after every decline; nobody reserved who attends loses the place |
| Rsvp.CountOfAnswers | packages/persistence/src/guests.ts:39-43 | how many answers end confirmed, waitlisted, pending and declined follows from the answers as a set |
| Rsvp.OrderCannotMatter | packages/persistence/src/guests.ts:39-43 | those numbers are the same for every order of the same responses |
| RsvpService.EventSavedKeeps | packages/persistence/src/index.ts:80-85 | an event edit keeps counters, replies and passes in step if the new capacity is not below the confirmed count |
| QuotaRuns.Conservation | packages/persistence/src/media.ts:68-74 | in every run stored and reserved bytes are those of the rows plus what commits wrote over, less what was released twice, within the limit; both corrections are zero unless a ready asset was marked again with its job still to be done, or a run was released under an owner that may still commit it |
| Quota.CommitConservesIff | packages/persistence/src/media.ts:68 | a commit conserves storage if and only if the row held no bytes |
| QuotaRuns.StoredTwice | packages/persistence/src/media.ts:67-68 | a run of three leased workers, one stalled and one lost before its acknowledgement, that stores the same asset twice |
| QuotaRuns.CountedTwiceIff | packages/persistence/src/media.ts:67 | a step has a continuation, itself without such steps, that counts bytes twice if and only if it marks a ready asset that holds bytes, is not deleted and whose job is still to be done |
| QuotaRuns.ReadReservationHolds | packages/persistence/src/creative.ts:49-50 | at a board's commit the row's reservation is what its worker read, unless it was released under that worker |
| QuotaRuns.ReleasedTwice | packages/persistence/src/creative.ts:39 | a run that releases one board's reservation out of another's |
| QuotaRuns.ReleasedTwiceIff | packages/persistence/src/creative.ts:39 | a step has a continuation, itself without such steps, that releases a reservation twice if and only if it releases the storage of a submitted run that its job's owner may still commit |
| QuotaRuns.AllowanceConserved | packages/persistence/src/creative.ts:28-34 | in every run each day's concept and board counters are exactly that day's runs still holding their allowance |
| Quota.AllowanceReleasedOnce | packages/persistence/src/creative.ts:33 | releasing an allowance a second time changes nothing |
| Quota.ReplayedKeeps | packages/persistence/src/recovery.ts:9 | the stored clamp of a replay never fires, the reserved one only in books that had drifted |
| Quota.BoardCommittedKeeps | packages/persistence/src/creative.ts:50 | a board's commit drifts by exactly what was read beyond what the row still held |
| Quota.BoardConservesIff | packages/persistence/src/creative.ts:50 | a board's commit conserves storage if and only if the reservation its worker read is still the row's |
| Quota.CommittedKeeps | packages/persistence/src/media.ts:68 | a commit turns the reservation into stored bytes within the limit, writing over what the row held |
| QuotaRuns.StepSound | packages/persistence/src/creative.ts:37-55 | every step of uploads, media and generation workers, cancellations and replays keeps the books |
| QuotaService.Accounts.Intend | packages/persistence/src/media.ts:34 | reserves the original and derivative budget exactly when it fits |
| QuotaService.Accounts.Finish | packages/persistence/src/media.ts:68 | commits exactly an undeleted, processing asset that fits |
| QuotaService.Accounts.Release | packages/persistence/src/media.ts:71 | gives back everything an asset holds |
| QuotaService.Accounts.GiveUpAll | packages/persistence/src/media.ts:73-74 | each listed row expires with its reservation given back, and no other row changes |
| QuotaService.Accounts.Replay | packages/persistence/src/recovery.ts:9 | on balanced books the clamped replay takes off exactly what the row held |
| QuotaService.Accounts.SetLimit | packages/persistence/src/operator.ts:15 | a limit below stored and reserved bytes is refused |
| QuotaService.Accounts.Generate | packages/persistence/src/creative.ts:28-30 | accepted exactly if fewer runs of that kind and day hold their allowance than are allowed and, for a board, 26214400 bytes are left; then the new run, the day's counter and the reserved bytes are as stated and nothing else changes |
| Quota.GeneratedMeans | packages/persistence/src/creative.ts:28-30 | when a request is accepted and what it changes, counted in runs and not in counters |
| QuotaRuns.AllowanceNeverExceeded | packages/persistence/src/creative.ts:28 | in every run a day's counter, and the runs of that kind holding their allowance, stay within the largest allowance under which a request was accepted |
| QuotaService.Accounts.Cancel | packages/persistence/src/creative.ts:34 | gives back storage always and the allowance only before submission, once; the run's row and at most two counters change |
| Quota.FailedMeans | packages/persistence/src/creative.ts:55 | a failed run gives back its storage, and its allowance exactly if the failure is definite and nobody cancelled it |
| Quota.ClosedMeans | packages/persistence/src/creative.ts:38 | a run whose service closed before its submission gives back both |
| MediaObjects.ReadyIsBacked | packages/persistence/src/media.ts:63-69 | in every run a ready, undeleted asset has its original with the recorded checksum and its derivative, unless one of the two spoiling steps was taken |
| MediaObjects.SpoiltIff | packages/persistence/src/media.ts:64-69 | a step has a continuation, itself without spoiling steps, to an asset ready without its objects if and only if it deletes the original of an asset that is ready or that the owner may commit without looking again, or marks one to be deleted while the owner may commit it |
| MediaObjects.CommitBackedIff | packages/persistence/src/media.ts:68 | after a commit the objects can still be lost, with no later spoiling step, if and only if the deletion of the asset is queued; if not, the commit leaves it backed |
| MediaObjects.ReadyUnbacked | packages/persistence/src/media.ts:69 | a run in which a worker that lost its lease after checking it deletes a ready asset's original |
| MediaObjects.RevivedUnbacked | packages/persistence/src/media.ts:64-68 | a run in which a given-up asset becomes ready again and its queued deletion takes its objects |
| MediaObjects.DeletionKeepsIff | packages/persistence/src/media.ts:64-69 | deleting an object leaves a ready asset backed if and only if the asset is not ready at that moment or the derivative deleted is not the one its row names |
| MediaObjects.StepKept | packages/persistence/src/media.ts:39-69 | every step of uploading, processing, failing and deleting keeps the asset's invariant |
| MediaObjects.Asset.Receive | packages/persistence/src/media.ts:39-42 | an upload is stored and recorded with its checksum, or given up without a trace |
| MediaObjects.Asset.Process | packages/persistence/src/media.ts:63-69 | an undisturbed attempt ends ready and backed, or leaves nothing under its own key and takes the original only with its lease |
| EmailJobs.SingleUncertainSend | packages/persistence/src/jobs.ts:8-26 | in every run, errors after an accepted send included, a message has at most one call of the provider that was not definitely rejected, unless it was written off while its job could be leased and a call stood or was about to be made |
| EmailJobs.TerminalForever | packages/persistence/src/jobs.ts:8-10 | jobs that succeeded, failed, were cancelled or became uncertain stay so and are never leased again |
| EmailJobs.SentTwice | packages/persistence/src/jobs.ts:26 | a run with two standing sends of one message |
| EmailJobs.SentTwiceIff | packages/persistence/src/jobs.ts:26 | a step has a continuation with two standing sends if and only if it writes off, as definitely failed, an unsettled message whose job is not finished and for which a call stands or is under way |
| EmailJobs.HarmlessIff | packages/persistence/src/jobs.ts:26 | in every run, as far as the states of job and message tell, writing the message off is harmless if and only if the job is finished, or the message is queued, rejected or settled, or the job waits and the message is linked, which no run reaches |
| EmailJobs.StepSafe | packages/persistence/src/jobs.ts:16-26 | every step keeps at most one standing or coming call for a message that was not written off harmfully, and, while its job can be leased, the message says so |
| EmailJobs.Queue.ProcessOne | packages/persistence/src/jobs.ts:11-28 | which job it takes, when it calls the provider, and the whole of job and message afterwards, for every state, decision and outcome, uncertain ones included, and when recording the submission or acknowledging the job throws |
| EmailJobs.Queue.Lease | packages/persistence/src/jobs.ts:8 | takes a pending or expired job exactly if there is one, counts the attempt, and changes no other job |
| EmailJobs.Queue.Intend | packages/persistence/src/jobs.ts:16-24 | a send is allowed only for an owned job whose message shows no earlier attempt, which is then recorded |
| Notifications.Inbox.Receive | packages/persistence/src/notifications.ts:15-19 | after a new event each linked message is complained of exactly when a complaint names it, else bounced exactly when a hard bounce does; every linked message shows the event as it should, by its status and time, every other is as it was, and the event is processed exactly if some message is linked; a repeated event changes nothing |
| Notifications.AppliedMeans | packages/persistence/src/notifications.ts:32-36 | what one event does to one message, status by status |
| Notifications.NewestWins | packages/persistence/src/notifications.ts:34-37 | among events that are neither deliveries nor negative, in any order, a message shows one that no other is newer than |
| Notifications.Inbox.Submitted | packages/persistence/src/notifications.ts:20-24 | after an acknowledgement links a message to events that came first, it is told the worst of all events if and only if none already processed is worse than every unprocessed one, always at the first link of the name; no other message changes, and this one not at all once an event has reached it |
| Notifications.ComplaintMissed | packages/persistence/src/notifications.ts:25-28 | a run of the inbox in which a complaint processed for an earlier link is not applied to a message linked later |
| Notifications.Inbox.Attempted | packages/persistence/src/jobs.ts:26 | the worker's own writes about an attempt leave delivered, bounced and complained messages alone |
| Notifications.Inbox.Reconcile | packages/persistence/src/notifications.ts:25-41 | the nested loops apply every pending event to every linked message, in the order read, and mark it processed |
| Notifications.FoldedRank | packages/persistence/src/notifications.ts:30-38 | applying events leaves the worst negative outcome that names the recipient |
| Notifications.OrderFree | packages/persistence/src/notifications.ts:30-38 | any two orders or repetitions of the same events end in the same negative outcome |
| Notifications.DeliveryIsNotOrderFree | packages/persistence/src/notifications.ts:32-35 | for the other outcomes the order matters |
| Tar.ReadInvertsArchive | packages/adapters/src/archive-reader.ts:12 | reading the archive of writable entries returns the same paths and bytes if and only if the paths are distinct, legal for the reader and within the limits, and is refused otherwise |
| Tar.ReadIsExact | packages/adapters/src/archive-reader.ts:12 | whatever the reader accepts, it accepts of exactly those bytes: nothing shorter and nothing longer |
| Tar.ReadIsSafe | packages/adapters/src/archive-reader.ts:12 | every accepted archive has distinct legal paths within both limits |
| TarTampering.ChangedByte | packages/adapters/src/archive-reader.ts:12 | one changed byte of an accepted archive: in a header it is refused, unless it only spells the same checksum differently; in the terminator it is refused; in an entry's data it changes that byte of that entry and nothing else; in the padding nothing |
| TarTampering.PlainFile | packages/adapters/src/archive-reader.ts:12 | whatever is read has a header marked as a plain ustar file, and a relative path of letters, digits, slashes, hyphens and underscores that ends at its NUL |
| Tar.HeaderReads | packages/adapters/src/archive.ts:6 | the reader recovers path and size from the header the writer lays out, checksum included, and follows it if and only if it accepts the path |
| Tar.SumBound | packages/adapters/src/archive.ts:6 | a header's byte sum fits its six octal digits |
| TarWriter.Encode | packages/adapters/src/archive.ts:6 | the stream written is the archive of the entries if and only if each has a legal path, a size the header holds and as many bytes as announced; otherwise the refusal is that of the first that has not |
| TarWriter.EncodeHeader | packages/adapters/src/archive.ts:6 | the buffer filled in place is the header of the format, field by field at its offset and zero elsewhere, with size and checksum in octal digits that read back |
| TarWriter.HeaderMeans | packages/adapters/src/archive.ts:6 | every byte of the specified header |
| TarWriter.AcceptedIsArchivable | packages/adapters/src/archive.ts:6 | what the writer accepts has sizes and paths the format can hold |
| TarReader.Extract | packages/adapters/src/archive-reader.ts:12 | for every chunking, all entries are stored exactly as read and every other object stays, or the prefix is left empty; the target is refused exactly if it is no safe directory name or not empty |
| TarReader.Cursor.Read | packages/adapters/src/archive-reader.ts:5-7 | reads exactly the next bytes of the flattened stream, or reports that it is truncated |
| TarRoundTrip.RoundTripIff | packages/adapters/src/archive.ts:6 | entries the writer accepts are read back if and only if their paths are distinct, without dots, and within the limits |
| TarRoundTrip.ArchiveAndExtract | packages/adapters/src/archive-reader.ts:12 | entries written, chunked anew in any way and extracted give the same files under the prefix, or leave the storage as it was |
| TarRoundTrip.EveryChunking | packages/adapters/src/archive-reader.ts:5-7 | every chunking of a stream is one of the cuts considered |
| BackupEncryption.DecryptTo | packages/adapters/src/backup-encryption.ts:9 | for every chunking, the outcome is the one that the first line, the last sixteen bytes and the text between them call for |
| BackupEncryption.EncryptTo | packages/adapters/src/backup-encryption.ts:8 | for every chunking, writes the header line, each byte enciphered in its place, and the tag over both |
| BackupEncryption.DecryptInvertsEncrypt | packages/adapters/src/backup-encryption.ts:8-9 | decrypting what was encrypted, under a known key, returns the bytes |
| BackupEncryption.OpensExactly | packages/adapters/src/backup-encryption.ts:9 | every bundle has exactly one outcome, which decryption finds: its first line is not good, it is cut short, its tag is not that of line and text under the named key, or it opens to each byte of the text deciphered in its place |
| BackupService.SplitDump | scripts/backup-service.ts:16 | the parts are numbered, never empty, no larger than the limit, and concatenate to the dump |
| BackupService.InventoryExact | scripts/backup-service.ts:18 | with distinct entry paths the length and membership test holds if and only if the extracted set is the manifest's |
| BackupService.PrepareRestore | scripts/backup-service.ts:18 | for every chunking, a restore is prepared exactly if the identifier is well formed, the bundle deciphers to an archive and the manifest inside is the one asked for, meets its schema, mentions every file, and lists each with its length and hash; the dump is the listed parts joined; every refusal is the specified one |
| BackupService.PreparedMeans | scripts/backup-service.ts:18 | the same of the specification: what a prepared restore vouches for, file by file, in both directions |
| BackupService.BackupRestores | scripts/backup-service.ts:16-18 | a bundle made from a dump, objects and fonts prepares the same manifest and, byte for byte, the same dump, exactly if the hashes of its names differ, the limits are kept and the manifest meets its schema; otherwise it is refused for that |
| BackupExample.SomeBackupRestores | scripts/backup-service.ts:16-18 | a codec, a suite and a small backup that meet every requirement of that theorem |
| BackupService.PathsDistinct | scripts/backup-service.ts:13-16 | parts, objects and fonts never share an archive path; all paths differ if and only if the hashes of names do |
| Csv.ParseCsv | packages/persistence/src/guests.ts:11 | the loop over characters computes the specified parse, errors included |
| Csv.ParseInvertsPrint | packages/persistence/src/guests.ts:10-11 | parsing printed rows returns their cells with only the leading guard added |
| Csv.CsvRoundTrip | packages/persistence/src/guests.ts:10-11 | the round trip for any rows, at most 1001, each with a non-empty cell |
| Csv.ReimportIsIdentity | packages/persistence/src/guests.ts:10-11 | what was imported once is exported and imported unchanged, and none of its cells starts a formula |
| Csv.ParseReadsDocuments | packages/persistence/src/guests.ts:11 | every legal document of quoted and bare fields, with any line breaks, reads as the texts of its rows with some text in them, and is refused exactly if there are more than 1001 |
| Csv.ParseRefusesOpenQuote | packages/persistence/src/guests.ts:11 | a document that ends inside a quoted field, in any row and column, is refused |
| Csv.ParseRefusesStrayQuote | packages/persistence/src/guests.ts:11 | a quote in the bare part of any field, also after a closing quote, is refused |
| Csv.ParseDecides | packages/persistence/src/guests.ts:11 | every text is a document, or has a quote that is never closed or a stray one, and the parser's verdict is the one for that |
| Csv.GuardMeans | packages/persistence/src/guests.ts:10 | the apostrophe goes in front of exactly the texts whose first character after white space is =, +, - or @ |
| ErasureOrder.EraseTables | packages/persistence/src/retention.ts:65 | deletes each listed table once and, of every two different tables but the exempt pair, the child first; succeeds exactly if every name is valid and the dependencies among the tables follow some ranking, and reports a cycle exactly if they have one |
| ErasureOrder.ErasureMeans | packages/persistence/src/retention.ts:65 | outcome and order in terms of the dependency rows |
| ErasureOrder.ExemptionsNeverMatter | packages/persistence/src/retention.ts:65 | references of a table to itself, and of albums to media assets, never change outcome or order |
| ErasureOrder.StuckHasCycle | packages/persistence/src/retention.ts:65 | if no remaining table is ready, the remaining dependencies contain a cycle |
| ErasureOrder.CompleteOrderIsAcyclic | packages/persistence/src/retention.ts:65 | if a complete order exists there is no cycle |

## Left out

- HTTP routing, pages, the scanner interface, capability checks, rate limits, cursors, audit and metrics rows, ticket and media rendering: they add state without changing these properties.
- The ledger configured as absent: admission is modelled with it configured, and restoring is assumed to stop older processes and to drop later backups.
- The legacy hand-over hold and its importer, and the erasure of a whole wedding's ledger records.
- Timestamps of ledger records and admissions, e-mail idempotency keys of operations, and questionnaire answers of replies.
- Admission.Service.Find: which pass a credential finds is any pass of the event that carries it; that credentials are unique is not needed.
- AdmissionRuns: changes to replies, events and attendees are one arbitrary step, so the theorems hold whatever the RSVP side does.
- Wedding.Tenant.Remove: the related rows arrive as a list in any order, since the query does not order them.
- Wedding.Tenant.SaveGuest: creating a household's first attendee is `Wedding.Tenant.Invite`, one attendee at a time; households themselves are identifiers, whose existence is not checked.
- Wedding.Tenant.Submit: the operation key that replays an earlier result, archived weddings and the queued mails and pass jobs are not modelled.
- QuotaRuns: restores are not a step there; an earlier copy of the books satisfies the same invariant, and workers are stopped. The byte limits of a guest upload session are not modelled.
- MediaObjects: posters share the derivative's key and fate and are one object with it; storage deletes succeed, and a transaction that reports an error did not commit. Copies made from an asset are not modelled.
- EmailJobs: adapters that declare themselves idempotent may resend by design and are left out; an error of the adapter that is neither uncertain nor retryable is a definite rejection, as the adapters promise.
- Notifications.Inbox.Submitted: which events count as missed is a history variable; the rows do not keep it.
- Tar: white space trimming beyond ASCII in numeric header fields, and the symbolic link and directory entries that the reader refuses, which are refused here by their type byte alone.
- TarReader.ObjectStore: a write that fails leaves its key as it was.
- BackupService.PrepareRestore: the manifest's table fingerprints, content types and the spelling of its dates are not part of the manifest here.
- BackupService: running the dump and restore tools, table fingerprints, replication and expiry of bundles.
