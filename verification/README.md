# Argus-C2: a verified model of the control plane

Argus-C2 dispatches signed tasks from a server to probes. Both ends keep durable state in transactions and share
one design for a bounded audit log with reserved completion slots. This project models, in Dafny 4.11:

- **the probe's replay engine** (`ProbeState`, `ProbeStore`, `ProbeAdmission`, `ProbeInvariants`, `ProbeRuns`,
  `ProbeTheorems`, `ProbeRecords`, `ProbeOutbox`, `ProbeMigration`):
  admission before execution, deduplication, recorded outcomes, crash recovery, the clock latch, rate windows, pruning,
  the result outbox and trust migration;
- **the server's dispatch store** (`ServerState`, `ServerStore`, `ServerInvariants`, `ServerTransactions`,
  `ServerAccounts`, `ServerEffects`, `ServerRuns`, `ServerLogins`, `ServerChanges`, `ServerJournal`, `ServerSteps`,
  `ServerQueues`, `ServerWitnesses`, `LoginLimits`):
  enrolment tokens, queueing, polling, results, node disablement, signer rotation, accounts, two-transaction logins,
  sessions and remote administration, all paying into one audit log;
- **both joined by a network** that loses, repeats and reorders messages (`System`, `Agent`);
- **signer trust sets and envelopes** (`Trust`, `Envelope`), **node credentials** (`Certificates`,
  `CertificateLaws`), the **audit table with its hash chain** (`Audit`, `Ledgers`) and its place behind both stores
  (`AuditRuns`);
- **two bounded readers**: the D-Bus frame guard (`Guard`, `GuardConn`) and the SSH file observer with its
  independent report validator (`SshLines`, `SshAudit`, `SshFindings`, `SshReport`).

`Core`, `Text`, `Tables` and `Protocol` hold shared values, text measures, table sums, tasks and results.
`dafny verify dfyconfig.toml` checks everything.

## How to read it

A transaction is a function from the committed state before it to the committed state after it and the answer
given; a rollback returns the input state. The objects that the code updates in place are classes whose methods
run step by step and are proved equal to those functions, loops included. A run is any sequence of steps: messages
in any order and number, crashes, restarts, clock readings, policies, administrators, collectors. The theorems are
about every run. "Nondecreasing clock" is assumed only where a statement says so.

For most operations a lemma whose name ends in `Iff` or `Effect` says when it succeeds and what it leaves, in terms of
the tables before and after it and with the numbers written out; such a lemma names the function that specifies the
operation only to apply it.

SHA-256 is a constructor applied to what is hashed (collision free), except in `Audit`, where hashing is a function
and the statement is "equal, or the rows at this position collide". A signature verifies exactly when its signer
signed that message. JSON text is an injective encoding; a different spelling of one document differs in a `layout` part, and
result sizes are counted as encoding/json writes them.

Four promises in the code's own comments, checks and design turn out not to hold in every case. Each has its exact
condition and a concrete input or run:

- `Append` can write a row that `Verify` then rejects: `Append` checks field lengths, `Verify` decodes at most 2048
  bytes of JSON, and escaping can make a valid event longer. `AppendVerifiesIffDecodable` gives the exact condition,
  `AppendCanBreakVerify` an input, `ShortSourcesAreDecodable` and `PlainSourcesAreDecodable` the sources that are
  always safe. What the server writes always verifies (`ServerLogVerifies`); what the probe writes does whenever its
  server's origin takes at most 1338 bytes in JSON (`ProbeLogVerifies`).
- `ChangeUser` is commented as still working at full audit capacity. It does exactly when the account has a session
  whose slot the event can use: `ChangeUserBlockedIff`, with a reachable failure in `ChangeUserCanFail`. The same
  exact conditions are given for revoking all sessions and for quarantine.
- A poll can find the signature of its own stored envelope invalid: it selects the row at one reading of the clock
  and rechecks the envelope at the next, and a task may expire in the very second its key's window closes.
  `RedeliveryFailsIff` gives the exact condition, `RedeliveryCanFail` a run.
- Rotation protects dispatched work (`RotationNeverStrands`) but not queued work: installing a trust set rechecks only
  dispatched envelopes, so a queued task may end after its signer's window. Such a task is never delivered, whatever is
  installed later (`StrandedForever`), and blocks its node's queue until it expires (`FirstDeliveryFailsIff`, with a
  run in `FirstDeliveryCanFail`). It never happens in a run if and only if every set put in force covers the tasks
  queued at that moment (`NeverStrandsIff`).

## Model

| member | source | states |
|---|---|---|
| `ProbeTheorems.AtMostOnce` | internal/probe/state.go:355-482 | over every run with crashes, restarts, duplicates, re-signed payloads, pruning and trust migration, each request enters the collector at most once, is decided at most once in the audit log, and all successful answers for it are the same bytes |
| `ProbeTheorems.RateLimited` | internal/probe/state.go:425-455 | over every run, executions admitted in any 60-second window number at most the per-minute limit of the policy used by the last of them, and in any one-second window at most its burst, whatever was pruned and however the clock stepped |
| `ProbeTheorems.ResultBudgetHolds` | internal/probe/state.go:276-297 | over every run under one policy, undelivered result bytes plus one full result for a running task never exceed the pending budget |
| `ProbeTheorems.StoreAcceptsItself` | internal/probe/state.go:181-220 | over every run, reserved slots equal running rows and are at most one; recovery refuses the store only for another identity, another verifier or the clock (the hash chain part of it is `RecoveryAcceptsTheLog`); migration checks pass exactly when nothing runs |
| `ProbeTheorems.ApplyKeepsGood` | internal/probe/engine.go:26-101 | every step of a run keeps the joint invariant of store, running execution, collector entries, answers, admissions and rate counts |
| `ProbeTheorems.RecordingSucceedsIff` | internal/probe/engine.go:63-101 | recording the outcome of an admitted execution succeeds exactly when the host's clock can stamp its event, and answers with the stored bytes; otherwise the store is left as by a crash at that moment |
| `ProbeRecords.OutcomesAreRecorded` | internal/probe/engine.go:63-101 | in every run, an execution that begins, is not interrupted and completes leaves in its row, in its answer and in the event that takes its reserved slot the result its outcome calls for, whatever happened in between; every other row stays |
| `ProbeRecords.InterruptionsAreRecorded` | internal/probe/state.go:181-220 | in every run, opening the store marks each interrupted execution as indeterminate, recovered after restart, with an empty report and its own start, and with one event, and leaves every other row |
| `ProbeOutbox.ResultsStay` | internal/probe/state.go:276-298 | over every run, a recorded result stays in the store byte for byte until it was acknowledged by those very bytes and its task ended more than a day before the latest time seen; the mark of an interrupted execution stays for good |
| `ProbeOutbox.AcknowledgeIff` | internal/probe/state.go:552-562 | an acknowledgment is taken if and only if it names a request and the digest of its stored result; that row is delivered and nothing else changes |
| `ProbeTheorems.ApplyKeepsBudget` | internal/probe/state.go:276-297 | each step keeps the byte budget, including acceptance, rejection, oversize replacement and recovery |
| `ProbeAdmission.OnlyPermittedTasksRun` | internal/probe/state.go:355-455 | nothing enters execution unless its key may sign it now, the clock is trusted, the request has no row and the policy loaded for this call permits it |
| `ProbeAdmission.NewRequestIff` | internal/probe/state.go:355-482 | exactly when a request without a row is decided, and then its row, its event, the reserved slot and the answer, field by field |
| `ProbeAdmission.ReadyIff` | internal/probe/state.go:299-341 | exactly when the worker is ready for work, and what the check leaves |
| `ProbeAdmission.ClockRunsWhen` | internal/probe/state.go:226-259 | the clock check passes exactly within 30 seconds of the latest time seen; a longer step back sets the latch, with an event if there is room for one |
| `ProbeAdmission.JudgeIff` | internal/probe/state.go:431-455 | every verdict has its one condition, in the order of the checks: expired, from the future, another policy, paused, task disabled, resource denied, over a rate, and else to be run |
| `ProbeAdmission.DuplicateIsAnswered` | internal/probe/state.go:386-408 | a repeated request with the same payload gets the stored bytes, or "busy" while it runs, and runs nothing |
| `ProbeAdmission.ConflictIsRefused` | internal/probe/state.go:390-399 | a request ID reused for another payload is neither run nor answered, no row changes, and the log gets the digest of that payload |
| `ProbeAdmission.InvalidIsNoted` | internal/probe/engine.go:26-44 | what does not verify, or is not for this node, changes nothing but the log, by one event |
| `ProbeAdmission.LatchHolds` | internal/probe/state.go:226-259 | once the clock latch is set, admission, readiness and recovery all fail and change nothing, whatever the time |
| `ProbeAdmission.LatchIsForever` | internal/probe/state.go:226-259 | once the clock latch is set, no continuation of a run admits another execution or clears the latch, whatever the clock reads and however often the worker restarts |
| `ProbeInvariants.RecoverAccepts` | internal/probe/state.go:144-222 | opening a store the worker produced succeeds if and only if identity, verifier and clock fit; afterwards nothing is running |
| `ProbeInvariants.MigrationAcceptsIffIdle` | internal/probe/trust.go:134-166 | verifyMigrationRecords accepts a store the worker produced if and only if no row is running |
| `ProbeInvariants.AdmitKeepsInv` | internal/probe/state.go:412-482 | an admission is only ever made for a request never decided before, and decides it |
| `ProbeInvariants.FinishKeepsInv` | internal/probe/state.go:484-511 | finishing a running row cannot fail for lack of audit space and replaces exactly that row |
| `ProbeInvariants.NormalisedResultFits` | internal/probe/engine.go:63-96 | whatever the collector returned, the recorded result is valid and fits its task and the size limit, and it is the one its outcome calls for: succeeded with exactly the collected bytes if and only if the report is in time, valid, for this task and small enough; else result_limit, collector_failed, deadline or expired, each exactly when it applies; from the start of the execution to its end |
| `ProbeInvariants.PrepareKeepsInv` | internal/probe/state.go:355-482 | prepare keeps the store invariant on every path and never forgets a decision |
| `ProbeInvariants.ReadyKeepsInv` | internal/probe/state.go:299-341 | the readiness check, with its pruning and clock step, keeps the invariant |
| `ProbeInvariants.MigrateKeepsInv` | internal/probe/trust.go:47-132 | trust migration keeps the invariant and every row (what it installs: `MigrationsInstall`) |
| `ProbeMigration.MigrationsInstall` | internal/probe/trust.go:47-132 | in every run, exactly when a migration succeeds, from conditions that can be checked before it; it then leaves the store bound to the new set and nothing else changed but one event, and opening it with that set is never refused for the verifier |
| `ProbeMigration.OpensWithTheLastTrust` | internal/probe/trust.go:23-45 | in every run, opening the store is refused for its verifier if and only if that is not the one installed last |
| `ProbeInvariants.AcknowledgeKeepsInv` | internal/probe/state.go:552-562 | an acknowledgment keeps the invariant |
| `ProbeRuns.PrepareEffect` | internal/probe/state.go:355-482 | prepare either admits within the limits, or answers with the bytes of a row in the table, or changes nothing but notes, clock and pruning |
| `ProbeRuns.PruneKeepsCounts` | internal/probe/state.go:276-281 | pruning never removes an execution that a later rate window could count |
| `ProbeStore.RunningRows` | internal/probe/state.go:181-203 | the rows recovery collects are the running ones, all of them |
| `ProbeStore.Store.constructor` | internal/probe/state.go:48-95 | a new store is empty, bound to its node and verifier |
| `ProbeStore.Store.Recover` | internal/probe/state.go:144-222 | the loop over interrupted executions commits exactly the recovery transaction, or nothing |
| `ProbeStore.Store.Ready` | internal/probe/state.go:299-341 | commits exactly the readiness transaction; the key loop finds an active key if there is one |
| `ProbeStore.Store.Prepare` | internal/probe/state.go:355-482 | commits exactly the admission transaction or rolls back |
| `ProbeStore.Store.Finish` | internal/probe/state.go:512-525 | commits exactly the completion and returns the stored bytes |
| `ProbeStore.Store.RejectInvalid` | internal/probe/state.go:526-536 | notes an invalid envelope, or changes nothing when the log is full |
| `ProbeStore.Oldest` | internal/probe/state.go:537-541 | the first undelivered completed row in delivery order, or none if there is none |
| `ProbeStore.Store.Pending` | internal/probe/state.go:537-550 | returns the result of the oldest undelivered row, nothing exactly when all are delivered, and never finds the store corrupt |
| `ProbeStore.Store.Acknowledge` | internal/probe/state.go:552-562 | marks exactly the row with this request and digest |
| `ProbeStore.VerifyMigrationRecords` | internal/probe/trust.go:134-166 | the record loop accepts exactly consistent tables |
| `ProbeStore.Store.MigrateTrust` | internal/probe/trust.go:47-132 | commits the migration transaction: on success the store is bound to the given set, on failure nothing changed |
| `ProbeStore.Engine.Execute` | internal/probe/engine.go:63-96 | the collector is entered exactly when the task has not expired, and the result of the step-by-step code is the one the outcome calls for |
| `ProbeStore.Engine.Process` | internal/probe/engine.go:26-101 | one call is exactly three steps of a run: receive, begin, complete; the answer of an admitted execution is the result its outcome calls for |
| `Protocol.FailureResultsAreSmall` | internal/protocol/dispatch.go:54-102 | every valid result that is not a success encodes to fewer than 1024 bytes |
| `ServerRuns.ReservationsConserved` | internal/state/state.go:114-123 | after any sequence of operations the reserved slots are one per enabled node and session, two per queued and one per dispatched task, and fit the log: the startup check never refuses the store's own state |
| `ServerRuns.CapacityNeverBlocks` | internal/audit/audit.go:99-134 | in every reachable state, however full the log is, each append of every expiry, cancellation and session-ending loop succeeds, so the loops end in their closed forms; polling with first dispatch, result receipt, disabling an enabled node, logout and revoking existing sessions never fail for lack of audit space |
| `ServerRuns.RotationNeverStrands` | internal/state/signers.go:87-161 | with a nondecreasing clock every dispatched, unexpired envelope verifies under the installed trust or the configured key until it expires, and the selected signer is in the trust set |
| `ServerRuns.RedeliveryFailsIff` | internal/state/tasks.go:163-206 | with a nondecreasing clock a poll finds a stored envelope's signature invalid if and only if the row it selected is dispatched and the window of its envelope's key has closed by the recheck; the task itself has expired by then |
| `ServerWitnesses.RedeliveryCanFail` | internal/state/tasks.go:163-206 | a run with a nondecreasing clock reaches a state where that happens |
| `ServerQueues.FirstDeliveryFailsIff` | internal/state/tasks.go:163-190 | in every run, whatever the clock does, a poll cannot sign if and only if the row it selects is queued and the installed set does not let the selected signer sign it now; the poll then changes nothing |
| `ServerQueues.StrandedForever` | internal/state/signers.go:87-161 | in every run a queued task that its signer's window does not hold is never delivered in any continuation, whatever sets are installed: it waits, expires or is cancelled |
| `ServerQueues.NeverStrandsIff` | internal/state/signers.go:131-153 | in every run no queued task is ever stranded if and only if every trust set put in force covers the tasks queued at that moment |
| `ServerWitnesses.FirstDeliveryCanFail` | internal/state/signers.go:131-153 | a run with a nondecreasing clock reaches a poll that cannot sign because a set was installed over a queued task |
| `ServerSteps.OtherStepsAreQuiet` | internal/state/management.go:87-210 | every operation but polling, submission and those of the signer settings leaves the settings, only closes old rows and adds only queued rows that their signer's window holds |
| `ServerRuns.SignedBySelectedSigner` | internal/state/tasks.go:157-194 | in every run a queued task can only be signed by the signer selected when it was queued, and every envelope was made with that key over the task's payload |
| `ServerRuns.TasksAreWriteOnce` | internal/state/tasks.go:212-346 | over every run a task's identity and payload never change, its envelope is written once, terminal states and results are final |
| `ServerJournal.LogTellsTasks` | internal/state/tasks.go:77-346 | in every run the log holds for each task exactly one event that queued it, one that dispatched it exactly if it was signed, and, exactly if it is closed, one that says how: expired, cancelled, or its result received |
| `ServerJournal.LogTellsNothingElse` | internal/state/tasks.go:77-346 | in every run it holds no event of a task that is not in the table |
| `ServerRuns.QueueDiscipline` | internal/state/tasks.go:106-111 | in every run every unresolved task belongs to an enabled node, every node has at most ten of them, and with a nondecreasing clock at most one of a node is dispatched and unexpired |
| `ServerRuns.SessionsHaveCurrentAuthority` | internal/state/admin.go:177-288 | in every run every live session was issued under its account's present generation, password and role, and the account is enabled |
| `ServerRuns.SessionLimits` | internal/state/admin.go:261-275 | in every run there are at most 128 sessions, eight per account, and 32 accounts |
| `ServerLogins.LoginIff` | internal/state/admin.go:225-288 | a login opens a session if and only if the password matched, the account read before is enabled and unchanged, there is room for it and its account, its ID and token are unused, and clock and log go along; it then opens exactly that session, for eight hours; an account that is not credible is refused with one event |
| `ServerLogins.AttemptIff` | internal/state/admin.go:186-223 | exactly when the first half of a login goes on to the password check, and the account it then reads |
| `ServerLogins.SessionsComeFromLogins` | internal/state/admin.go:177-288 | in every run every session was opened by a login of two halves: one step read the account of the name given, a later one found that the password matches and the account is enabled and unchanged, and opened the session for it |
| `ServerChanges.TokensAreDistinct` | internal/state/admin.go:225-288 | in every run each session token belongs to one session |
| `ServerEffects.PollEffect` | internal/state/tasks.go:142-247 | only an enabled node with its own epoch and certificate is answered, for the selected signer; a poll expires exactly what is overdue of that node and hands out the envelope of its first deliverable task, nothing exactly when there is none, and changes nothing when it fails |
| `ServerEffects.SubmitAcceptsIff` | internal/state/tasks.go:293-346 | exactly which submissions are acknowledged: from an enabled node, well formed, answering the identities, type, policy and resource of its own dispatched task, with an event that can be stamped, or the very bytes already stored |
| `ServerEffects.SubmitEffect` | internal/state/tasks.go:325-346 | an acknowledged submission leaves its bytes, status and code in its row and touches no other; the answer names node, task and digest; a repeated or refused one changes nothing |
| `ServerEffects.EnqueueEffect` | internal/state/tasks.go:77-136 | the new row waits, unsigned, for exactly the task ordered, with the node's epoch and last reported policy, the time read here and the requested lifetime, inside the selected key's window; of the earlier rows exactly the node's overdue ones expire |
| `ServerEffects.EnqueueIff` | internal/state/tasks.go:77-136 | exactly when a task is queued: a prepared node, a lifetime of a second to five minutes, dispatch not paused, room in table, queue and log once the overdue tasks are closed, an unused ID, a valid task that the signer may sign |
| `ServerEffects.RegisterIff` | internal/state/state.go:179-235 | exactly when a registration succeeds: complete, matching any leaf certificate given with it, live token, new agent, new certificate fingerprint, room and a clock for its event; it then spends that one token and adds that one enabled node with its slot, and a failed one leaves the token usable |
| `ServerEffects.IssueEffect` | internal/state/state.go:148-172 | issuing a token drops exactly the spent and expired ones, adds the new one with the requested lifetime and changes nothing else |
| `ServerEffects.IssueIff` | internal/state/state.go:148-172 | exactly when a token is issued: for a second to a quarter of an hour, with fewer than a thousand live ones waiting and not one that waits already |
| `ServerEffects.HeartbeatIff` | internal/state/state.go:287-323 | a heartbeat is taken exactly from an enabled node with its own epoch and certificate that reported at least five seconds ago; it replaces what admission reads of that node |
| `ServerEffects.DisableEffect` | internal/state/state.go:254-283 | disabling an enabled node succeeds exactly when its events can be stamped; it rejects the node's unsent tasks, leaves its sent ones open for a late result, and touches no other node's |
| `ServerEffects.DisableIff` | internal/state/state.go:254-283 | exactly when a request to disable a node is accepted; for a disabled one it only leaves an event |
| `ServerEffects.OnlyAdminsChangeDispatch` | internal/state/management.go:114-124 | remote administration changes a task, a node or an enrolment token only for a live session of an enabled Admin account |
| `ServerEffects.RefusalRollsBack` | internal/state/management.go:185-202 | a refused request leaves tasks, nodes, settings and accounts as they were |
| `ServerChanges.ManageIff` | internal/state/management.go:87-124 | a request is unauthorised if and only if its token is not that of a usable session of an enabled account, and forbidden only to an account that is no Admin and only for the three operations on tasks, tokens and nodes |
| `ServerChanges.ManageEffect` | internal/state/management.go:126-210 | a request that succeeds did what was asked, and nothing else, for the account whose session holds the token: a task names that account, and the session counts as used now unless the request ended it |
| `ServerEffects.LeavingEffect` | internal/state/management.go:137-143 | logout ends exactly that session; revoke ends exactly the account's sessions and raises exactly its generation; each session that ends leaves its event |
| `LoginLimits.LoginsAreLimited` | internal/state/admin.go:78-112 | with a nondecreasing clock a bucket allows at most its limit (30 in all, 10 a source, 5 a name) per row lifetime and fewer than twice its limit in any minute, reports at most one first block per lifetime, and the table stays within 1024 rows |
| `LoginLimits.AllowedIff` | internal/state/admin.go:78-112 | an attempt is allowed exactly while all, its source and its name counted fewer than 30, 10 and 5 attempts in rows not older than a minute; it is reported as the first blocked one exactly at one of these numbers, and every bucket counts it |
| `LoginLimits.AdmitLogin` | internal/state/admin.go:78-112 | the loop over the three buckets counts each once, or refuses when the table is full |
| `ServerRuns.ChangeUserBlockedIff` | internal/state/admin.go:347-415 | in every reachable state an account change is refused for lack of audit space if and only if the log is full and the account has no session |
| `ServerChanges.ChangeIff` | internal/state/admin.go:347-415 | exactly when an account is changed; then its password, role or state is the one asked for, its generation is the next, its sessions are gone, and one event takes their place; a refused change leaves everything |
| `ServerChanges.CreateIff` | internal/state/admin.go:313-345 | exactly when an account is created, and the account that is added |
| `ServerChanges.NamesAreDistinct` | internal/state/admin.go:313-415 | in every run no two accounts share a name |
| `ServerChanges.OnlyOperatorsChange` | internal/state/admin.go:313-415 | only creating and changing accounts changes an account, but that generations may rise, and only the four operations on them change the signer settings |
| `ServerChanges.RevokeAllIff` | internal/state/admin.go:448-466 | exactly when all sessions are revoked; then none is left, every generation is raised by one and nothing else changed |
| `ServerChanges.QuarantineEffect` | internal/state/admin.go:471-513 | a quarantined store has every node disabled, every open task given up as by disabling its node, every token spent, every generation raised and no session; all else is as it was |
| `ServerChanges.ConfigureIff` | internal/state/tasks.go:35-61 | the raw signer is set once, to the digest of the key given; after that only the same key is accepted |
| `ServerChanges.PauseIff` | internal/state/signers.go:48-81 | dispatch is paused whenever the log takes the event and resumed exactly inside the selected signer's window; the flag is then the one asked for and nothing else changed |
| `ServerChanges.InstallIff` | internal/state/signers.go:87-161 | a set is installed if and only if dispatch is paused, the operator names what is installed now, the transition is permitted, and the selected signer and every live envelope stay good; installed is the set given |
| `ServerChanges.SwitchIff` | internal/state/signers.go:163-200 | the signer becomes the one asked for if and only if dispatch is paused, that key is installed and inside its window, and nothing waits to be signed |
| `ServerChanges.CancelIff` | internal/state/signers.go:205-252 | cancelling succeeds exactly while dispatch is paused and rejects exactly the tasks that were not sent yet |
| `ServerWitnesses.ChangeUserCanFail` | internal/state/admin.go:387-414 | a run reaches a state where disabling an account fails because the log is full |
| `ServerTransactions.EnqueueKept` | internal/state/tasks.go:77-136 | queueing keeps accounts, tables, signer binding and live envelopes |
| `ServerTransactions.PollKept` | internal/state/tasks.go:142-208 | polling keeps everything and fails neither for lack of audit space nor because of a stored row |
| `ServerTransactions.SubmitKept` | internal/state/tasks.go:293-346 | receiving a result keeps everything and never lacks audit space |
| `ServerTransactions.DisableKept` | internal/state/state.go:254-283 | disabling keeps everything; a full log stops it exactly when the node is already disabled |
| `ServerTransactions.RegisterKept` | internal/state/state.go:179-235 | enrolment reserves the node's slot and keeps everything |
| `ServerTransactions.HeartbeatKept` | internal/state/state.go:287-323 | a heartbeat keeps everything |
| `ServerTransactions.ConfigureKept` | internal/state/tasks.go:35-61 | configuring the signer keeps everything |
| `ServerTransactions.PauseKept` | internal/state/signers.go:48-81 | pausing and resuming keep everything |
| `ServerTransactions.InstallKept` | internal/state/signers.go:87-161 | an installed trust set keeps every live envelope verifying and the selected signer inside |
| `ServerTransactions.SwitchKept` | internal/state/signers.go:163-200 | switching signers keeps queued work bound to its signer and live envelopes valid |
| `ServerTransactions.CancelKept` | internal/state/signers.go:205-252 | cancelling rejects every queued task, leaves every other row exactly as it was and keeps everything |
| `ServerAccounts.ChangeUserKept` | internal/state/admin.go:347-415 | account changes leave no session with stale authority; exact condition for a full log |
| `ServerAccounts.RevokeAllKept` | internal/state/admin.go:448-466 | revoking all sessions keeps everything and fails exactly when the log is full and there are none |
| `ServerAccounts.QuarantineKept` | internal/state/admin.go:471-513 | quarantine disables every node, closes every unresolved task and session and consumes every token; it fails exactly when the log is full and there is neither a session nor a queued task |
| `ServerAccounts.FirstIsLeast` | internal/state/admin.go:471-490 | the node quarantine disables next is the enabled one with the least agent ID |
| `ServerAccounts.FinishLoginKept` | internal/state/admin.go:225-288 | the second login transaction keeps every part of the invariant, whatever happened since the first (when it opens a session: `LoginIff`) |
| `ServerAccounts.StartLoginKept` | internal/state/admin.go:186-223 | the first half of a login keeps everything |
| `ServerAccounts.ManageKept` | internal/state/management.go:87-210 | remote administration keeps everything on success, denial, recorded rejection after the savepoint, and rollback |
| `ServerAccounts.CreateUserKept` | internal/state/admin.go:313-345 | creating an account keeps everything |
| `ServerAccounts.IssueTokenKept` | internal/state/state.go:148-172 | issuing a token keeps everything |
| `ServerAccounts.AddCredentialKept` | internal/state/certificates.go:162-182 | the fingerprint and event that a renewal writes keep everything |
| `ServerInvariants.DispatchKeepsLive` | internal/state/tasks.go:169-194 | dispatching the first deliverable task leaves it the node's only live one |
| `ServerInvariants.SignTaskVerifies` | internal/state/tasks.go:181-190 | what the poll path signs is signed by the selected key and verifies until the task expires |
| `ServerInvariants.SweepSucceeds` | internal/state/tasks.go:212-291 | while the reservations balance, closing tasks row by row never runs out of slots and closes exactly the selected rows |
| `ServerInvariants.EndSucceeds` | internal/state/admin.go:114-172 | while the reservations balance, ending sessions one by one never runs out of slots and ends exactly the selected ones |
| `ServerStore.CloseTasks` | internal/state/tasks.go:212-291 | the row-by-row loop of expiry and cancellation equals its append-by-append specification, failures included |
| `ServerStore.EndSessions` | internal/state/admin.go:114-172 | the session loop equals its append-by-append specification, failures included |
| `ServerStore.VerifyLive` | internal/state/signers.go:131-153 | the loop over live envelopes accepts exactly when all of them verify |
| `ServerStore.Store.constructor` | internal/state/state.go:50-125 | a fresh store satisfies the invariant |
| `ServerStore.Store.Enqueue` | internal/state/tasks.go:65-136 | commits exactly the admission transaction or rolls back, keeping the invariant |
| `ServerStore.Store.Poll` | internal/state/tasks.go:142-208 | commits exactly the poll transaction, keeping the invariant; no audit or corruption failure |
| `ServerStore.Store.SubmitResult` | internal/state/tasks.go:293-346 | commits exactly the result transaction, keeping the invariant; no audit failure |
| `ServerStore.Store.Disable` | internal/state/state.go:243-285 | closes all the node's tasks row by row and disables it; a full log stops it only for a disabled node |
| `ServerStore.Store.ConfigureSigner` | internal/state/tasks.go:35-61 | sets the signer once and keeps the invariant |
| `ServerStore.Store.PauseDispatch` | internal/state/signers.go:48-81 | changes only the paused flag, within the selected key's window when resuming |
| `ServerStore.Store.InstallSignerTrust` | internal/state/signers.go:87-161 | commits exactly the install transaction after validating, comparing and verifying in loops, with a clock reading of its own for every row |
| `ServerStore.Store.SwitchSigner` | internal/state/signers.go:163-200 | commits exactly the switch transaction, with nothing queued |
| `ServerStore.Store.CancelQueuedForSignerChange` | internal/state/signers.go:205-252 | terminates exactly the queued tasks |
| `ServerStore.Store.Register` | internal/state/state.go:179-235 | consumes one live token and adds one enabled node and its slot, or changes nothing |
| `ServerStore.Store.IssueToken` | internal/state/state.go:136-172 | commits exactly the issuing transaction or changes nothing |
| `ServerStore.Store.CreateUser` | internal/state/admin.go:313-345 | adds one enabled account of generation 1, or nothing |
| `ServerStore.Store.ChangeUser` | internal/state/admin.go:347-415 | ends the account's sessions and changes it with one event, or nothing |
| `ServerStore.Store.RevokeAllSessions` | internal/state/admin.go:448-466 | ends all sessions and bumps all generations; exact failure condition |
| `ServerStore.Store.QuarantineRestore` | internal/state/admin.go:471-513 | disables every node in ID order, closes every task and session, consumes every token; exact failure condition |
| `ServerStore.Store.StartLogin` | internal/state/admin.go:186-223 | commits exactly the first login transaction |
| `ServerStore.Store.FinishLogin` | internal/state/admin.go:225-288 | commits the second login transaction, keeping the invariant; `LoginIff` says when it opens a session and which |
| `ServerStore.Store.Manage` | internal/state/management.go:87-210 | commits exactly the administration transaction with its savepoint and rejection record |
| `System.RecordedResultsAreAccepted` | internal/state/tasks.go:293-346 | in every run of server and probe, any result the probe has recorded passes all server checks and is acknowledged while the node is enabled and authorised, exactly if the server's clock can stamp the event or the result is already stored |
| `System.DeliveredMeansStored` | internal/probe/state.go:552-562 | in every run, a row the probe marked delivered is stored by the server with exactly those bytes |
| `System.OnlySubmitAddsResults` | internal/state/tasks.go:330-340 | no operation but result submission ever stores a result |
| `System.ApplyKeepsGood` | internal/agent/tasks.go:104-214 | every joint step keeps the link between envelopes, rows, results and acknowledgments |
| `Agent.Client.SubmitResult` | internal/agent/tasks.go:50-87 | an acknowledgment is accepted exactly when it is for the submitted bytes and this node |
| `Agent.Client.Flush` | internal/agent/tasks.go:89-99 | posts the oldest undelivered result and marks it delivered exactly when its own bytes are acknowledged |
| `Trust.Validate` | internal/signing/trust.go:59-94 | the loops accept exactly the valid trust sets |
| `Trust.CheckTransition` | internal/signing/trust.go:174-216 | the loops accept exactly the permitted transitions |
| `Trust.OverlapIsADayAtMost` | internal/signing/trust.go:59-94 | the two keys of a valid set are both in their windows at some moment, and never at moments a day or more apart |
| `Trust.Stage` | internal/signing/trust.go:219-246 | it succeeds exactly under the stated conditions; what it returns is an accepted transition that adds exactly the next key, from now to the time asked for, and ends the present one at its retirement |
| `Trust.Retire` | internal/signing/trust.go:248-259 | it succeeds exactly under the stated conditions; what it returns is an accepted transition that drops exactly that key and lists it as retired |
| `Trust.ChainShape` | internal/signing/trust.go:174-216 | from the initial migration, key count and retired count are functions of the generation |
| `Trust.ChainLength` | internal/signing/trust.go:59-94 | a chain of accepted transitions has at most 129 generations |
| `Trust.LeaversStayOut` | internal/signing/trust.go:174-216 | a key that leaves a chain never returns |
| `Trust.AuthorityNeverGrows` | internal/signing/trust.go:174-216 | no key's window, bytes or legacy flag ever gain authority along a chain |
| `Trust.OnlyThePinnedKeyIsLegacy` | internal/signing/trust.go:174-216 | only the key pinned before the migration ever accepts legacy envelopes |
| `Envelope.SignedVerifies` | internal/signing/envelope_v2.go:26-101 | what SignTrusted signs, VerifyTrusted accepts until the task expires |
| `Envelope.VerifiedUntilExpiry` | internal/signing/envelope_v2.go:47-101 | an envelope that verifies once verifies until its task expires |
| `Envelope.VerifiesWhileWindowOpen` | internal/signing/envelope_v2.go:47-101 | an envelope that verified once verifies later if and only if the window of its key is still open, which it is until the task expires |
| `Envelope.LegacySignedVerifies` | internal/signing/signing.go:22-64 | an unversioned envelope verifies under a key if and only if that key signed it |
| `Envelope.VerifiesIff` | internal/signing/envelope_v2.go:47-101 | an envelope verifies under a valid set if and only if one of its keys signed it, for this set unless the key takes envelopes without a version, and the open window of that key holds the whole task; the answer names that key and task |
| `Envelope.TransitionAddsNoAuthority` | internal/signing/trust.go:174-216 | an envelope accepted after a transition under a kept key was accepted before it |
| `Audit.AppendRefinesLedger` | internal/audit/audit.go:99-134 | on a verified table Append succeeds and fails exactly as the abstract ledger of both stores does |
| `Audit.AppendVerifiesIffDecodable` | internal/audit/audit.go:99-177 | Append keeps Verify if and only if the encoded event is at most 2048 bytes |
| `Audit.AppendCanBreakVerify` | internal/audit/audit.go:178-183 | a valid event whose source needs escaping breaks Verify |
| `Audit.ShortSourcesAreDecodable` | internal/audit/audit.go:73-90 | events whose source takes at most 1338 bytes in JSON always decode, whatever their other fields hold |
| `Audit.PlainSourcesAreDecodable` | internal/audit/audit.go:73-90 | events whose source holds no character that JSON escapes always decode |
| `Audit.HeadDeterminesRows` | internal/audit/audit.go:136-177 | two verified logs with the same head hold the same rows, or the rows at some position were hashed from different bytes to one hash |
| `Audit.AuditTable.constructor` | internal/audit/audit.go:54-61 | a new table verifies |
| `Audit.AuditTable.Append` | internal/audit/audit.go:99-134 | appends exactly one chained row and moves the head, or changes nothing |
| `Audit.AuditTable.Verify` | internal/audit/audit.go:136-177 | the loop accepts exactly the verified tables |
| `AuditRuns.StoredVerifiesIff` | internal/audit/audit.go:136-183 | the table that holds a series of events verifies if and only if every event decodes and the log is within its capacity |
| `AuditRuns.AppendsAreStored` | internal/audit/audit.go:99-134 | any series of successful appends of decodable events leaves exactly that table, and it verifies |
| `AuditRuns.ProbeLogVerifies` | internal/probe/state.go:144-180 | over every run of the probe the table behind its ledger verifies if and only if every event is within the decoding limit, which holds when server origins take at most 1338 bytes in JSON, and no two rows decide one request |
| `AuditRuns.RecoveryAcceptsTheLog` | internal/probe/state.go:144-222 | over every run, recovery with the whole of audit.Verify refuses the worker's own store only for identity, verifier or clock |
| `AuditRuns.ServerLogVerifies` | internal/state/state.go:111-124 | over every run of the server the table behind its ledger verifies and the reservation check holds, so the store always opens again |
| `Ledgers.Append` | internal/audit/audit.go:99-134 | sequence plus reserved never exceeds the capacity |
| `Ledgers.ConsumingAppendSucceeds` | internal/audit/audit.go:99-134 | an append that gives back a slot cannot fail, however full the log is |
| `Certificates.GenerationsAreContiguous` | internal/state/certificates.go:129-168 | in every run a node's generations are contiguous from 1 and at most 64 |
| `Certificates.AtMostTwoActive` | internal/state/certificates.go:135-140 | with a nondecreasing clock at most two credentials of a node are active |
| `Certificates.SupersededStopsInADay` | internal/state/certificates.go:153-176 | in every run and for every clock, a superseded credential stops being authorised 24 hours after its successor's issue, or when either certificate ends if that is sooner |
| `CertificateLaws.AuthorisedIff` | internal/state/certificates.go:52-70 | in every run and at every time, a credential authorises its node if and only if it is not revoked, its node is enabled, the time is inside its own validity and, once it has a successor, before 24 hours after the issue of that one and before that one ends |
| `CertificateLaws.RenewIff` | internal/state/certificates.go:87-191 | exactly when a new renewal succeeds, and the credential, the retirement and the response it leaves, to the second |
| `CertificateLaws.AnswersAreExact` | internal/state/certificates.go:143-176 | in every run each answer names the generation it created and, as the end of the previous certificate, the very time from which that one is no longer authorised: 24 hours after the issue, or the end of either certificate if that is sooner |
| `CertificateLaws.RevocationEffect` | internal/state/certificates.go:240-264 | in every run, revoking takes the authority of exactly that certificate away, at every time, if and only if the event can be logged, and no other node changes |
| `CertificateLaws.EnrolmentEffect` | internal/state/state.go:179-235 | in every run, exactly when a node is enrolled; it starts with that certificate alone, which authorises it just within its own validity, and nothing else changes |
| `CertificateLaws.DisabledIsOut` | internal/state/certificates.go:52-70 | once a node is disabled, no certificate authorises it again in any continuation, at any time |
| `Certificates.RenewalIdsAreBound` | internal/state/certificates.go:100-125 | in every run a renewal ID is bound forever to one request and one response |
| `Certificates.RetryIsAnswered` | internal/state/certificates.go:100-125 | in every run, asking again with an answered renewal's ID, request and certificate gives the same answer exactly while both certificates are authorised, and changes nothing |
| `Certificates.RevokedIsOut` | internal/state/certificates.go:240-264 | once a certificate is revoked in a run, no later state of the run ever authorises it again, at any time |
| `Certificates.CredentialStore.Register` | internal/state/state.go:179-235 | a valid new node starts with one credential of generation 1, anything else changes nothing |
| `Certificates.CredentialStore.RenewCertificate` | internal/state/certificates.go:87-191 | commits the renewal transaction, with the response checked before it is stored and the event in the shared log, or changes nothing; an unknown node is an error (`RenewIff` and `AnswersAreExact` say when and what) |
| `Certificates.CredentialStore.RevokeCertificate` | internal/state/certificates.go:240-264 | revokes exactly that credential of that node if there is one and the event can be logged, and otherwise changes nothing |
| `Guard.AcceptedIsMarshalled` | internal/service/guard.go:145-238 | whatever the guard accepts is the marshalling of an allowed message, with fields, padding and body consumed exactly |
| `Guard.MarshalledIsAccepted` | internal/service/guard.go:145-238 | every allowed message passes the guard |
| `Guard.FieldsIff` | internal/service/guard.go:160-203 | the field loop reads exactly marshalled sequences of acceptable distinct fields |
| `Guard.TextIff` | internal/service/guard.go:133-144 | a string is read exactly where one is marshalled |
| `Guard.NumberIff` | internal/service/guard.go:112-119 | a number is read exactly where one is marshalled, in either byte order |
| `Guard.SignatureIff` | internal/service/guard.go:120-132 | a signature is read exactly where one is marshalled |
| `Guard.SameLength` | internal/service/guard.go:62-68 | Read and validateFrame compute the same frame length |
| `GuardConn.Cursor.Align` | internal/service/guard.go:99-111 | skips exactly zero padding to the boundary, in bounds |
| `GuardConn.Cursor.Number` | internal/service/guard.go:112-119 | reads an aligned number in bounds |
| `GuardConn.Cursor.Signature` | internal/service/guard.go:120-132 | reads a signature in bounds |
| `GuardConn.Cursor.Text` | internal/service/guard.go:133-144 | reads a string in bounds |
| `GuardConn.CheckFields` | internal/service/guard.go:160-203 | the field loop terminates and finds sender and body signature |
| `GuardConn.CheckBody` | internal/service/guard.go:212-237 | the body has the announced type and nothing follows it |
| `GuardConn.ValidateFrame` | internal/service/guard.go:145-238 | accepts exactly the frames of the functional description |
| `GuardConn.GuardedConn.NextFrame` | internal/service/guard.go:52-77 | takes the peer's next bytes as one frame if and only if they are a whole frame within the limits that the guard accepts; otherwise hands nothing on |
| `GuardConn.GuardedConn.Read` | internal/service/guard.go:38-82 | succeeds after the handshake exactly when a frame is pending or ready; over any series of reads, failed ones included, the bytes handed on are a prefix of accepted frames, which are segments of the peer's stream in order and without overlap, at most 8192 bytes each and 65536 in all; at most 4096 bytes before the handshake ends |
| `SshAudit.Collect` | internal/sshaudit/audit.go:19-59 | for every content and read outcome the report is accepted by the validator exactly from its time of observation on, if that is after 1970, says whether all, some or none of the files were read, and says of each file what Inspect says, the directives being those that the characters of the file give |
| `SshAudit.Inspect` | internal/sshaudit/audit.go:29-53 | one file: read if and only if the read succeeded and the content is readable, otherwise the status says why; the directives are, from the characters of the file, exactly the first setting of each name before the first Match, keys the first eight, "ok" exactly when nothing was left out; the findings are exactly those the metadata, lines and baseline give rise to |
| `SshAudit.Observer.Parse` | internal/sshaudit/audit.go:74-198 | reads the content exactly when it is small, UTF-8, without private keys, control bytes, too many or bad lines; otherwise gives "sensitive_content" or "parse_error" and no entries; the directives of a configuration file are exactly those its characters give; exact findings |
| `SshAudit.RecordsAreReports` | internal/sshaudit/audit.go:129-190 | the directives recorded of a file are, in order and with their lines, exactly the first line of each of the seven names, in any case and the one old name included, that gives it one allowed value before the first Match |
| `SshLines.ClassifyIff` | internal/sshaudit/audit.go:93-181 | what a line of a configuration file is read as, from its characters alone: blank, bad, a Match, an Include, a delegation, or a setting with its directive and value |
| `SshLines.ClassifyKeyIff` | internal/sshaudit/audit.go:93-128 | what a line of a key file is read as: blank, bad, or the key that the parser reads from its characters without the white space around them |
| `SshLines.LinesAreJoined` | internal/sshaudit/audit.go:85-94 | splitting a file into lines loses nothing and leaves no newline inside a line |
| `SshFindings.KeysAreReported` | internal/sshaudit/audit.go:109-128 | the reported keys are, in order and with their lines, exactly those of the first eight lines that hold one |
| `SshFindings.WarningsIff` | internal/sshaudit/audit.go:131-164 | a configuration file gets each of three warnings exactly if some line starts a Match block, includes a file, or sends key or certificate lookup elsewhere |
| `SshFindings.VerdictsIff` | internal/sshaudit/audit.go:29-53 | the verdict on a file is that of comparing digests; the warnings for a difference and for a file that others may write are given exactly when they apply |
| `SshAudit.Observer.ParseLines` | internal/sshaudit/audit.go:91-189 | the line loop stops exactly when there is a bad line, and keeps entries, status and findings in step with the lines |
| `SshAudit.Observer.Compare` | internal/sshaudit/audit.go:38-47 | digest, baseline verdict and finding of a file that was read |
| `SshAudit.Observer.AddFinding` | internal/sshaudit/audit.go:60-67 | adds a finding once |
| `SshAudit.Observer.MarkPartial` | internal/sshaudit/audit.go:68-73 | downgrades "ok" and adds a finding |
| `SshAudit.FewDirectives` | internal/sshaudit/audit.go:184-189 | at most seven directives are recorded, so the directive limit is unreachable |
| `SshAudit.DirectiveLimitNeverFound` | internal/sshaudit/audit.go:184-187 | no report ever lists the directive limit |
| `SshAudit.FirstIffNew` | internal/sshaudit/audit.go:180-189 | a setting is the first of its name exactly when the name is not recorded yet |
| `SshReport.Validate` | internal/protocol/inspection.go:82-145 | the loops accept exactly the reports the rules describe |
| `SshReport.CheckEntries` | internal/protocol/inspection.go:113-134 | keys, directives and distinct findings are checked exactly |

## Left out

- SQLite, file locks and private-file checks: a transaction is atomic and one worker holds a store.
- Ed25519, SHA-256, Argon2id, X.509 chains and TLS beyond the laws above; a server caller's credential check is a Boolean input there, and is modelled in `Certificates` on its own.
- JSON text decoding and schema migrations from older databases.
- HTTP handlers, listeners, retry timers, jitter and the failure counter of `RunTasks`; its poll, process, submit and flush calls are steps of `System`.
- Host collectors, openat2 reads and SSH public-key parsing: a collector returns any outcome, a read any listed code with consistent metadata, a key parser any well-formed key or failure.
- The login rate limiter is modelled on its own in `LoginLimits`; its verdict is an input of `StartLogin`.
- Contents of server audit events beyond kind and subject, and paged reads of nodes, tasks and audit records, which only append an event.
- Audit verification inside the two stores' transactions is the capacity and reservation check; `AuditRuns` adds the hash chain for every run.
- Time stamps of audit events: at a host clock before 1970 Append refuses the event and the transaction rolls back, which leaves a state that the run reaches without that step. `Stamped` in both stores and `Certificates` model it; the methods of `ServerStore` and `ProbeStore` run with a clock after 1970.
- The service collector, command-line tools, session files and health reports.
