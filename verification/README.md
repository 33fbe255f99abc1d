# Verification of the guarded-write server

A Dafny model of the parts of the server that hold state machines or exact arithmetic, with proofs of what
they keep. `dafny verify dfyconfig.toml` checks the whole project.

## What is modelled

- **Guarded writes** (`ExecutionJournal`, `WriteRuns`, `WriteSafety`, `WriteAudit`, `WriteAnswers`,
  `Retries`, `Coordinator`, `Replies`, `PayslipLocks`, `PayrollWrites`). A run is a program counter over one
  shared idempotency table and audit log; each storage transaction is one step, a run may crash at any point,
  and a commit may be lost before or after it took effect. The safety results quantify over every interleaving
  of any number of runs, and what a call answers is given both ways, from its fields and the history alone. The
  coordinator class writes the source's branches and exception handlers out, and is shown to take exactly the
  machine's steps. Payroll writes run inside their payslip's lock; the two are put together in one system.
- **OAuth and connector authority** (`AuthorityTables`, `Authority`, `AuthoritySteps`, `AuthorityStore`,
  `AuthorityRuns`, `AuthorityAnswers`, `AuthorityCodes`, `AuthorityHandles`). Five linked tables and
  thirteen serial write transactions. The store class issues the statements in the source's order against the
  trigger guards of the schema and proves that none aborts; `AuthorityAnswers` states for each transaction, from
  the rows of any reachable state, when it is accepted and every row it changes.
- **Audit chain** (`AuditChain`, with `Texts` and `Timestamps`). Interleaved per-tenant hash chains, redaction,
  and the text and calendar arithmetic of stored times.
- **Paging and ledger arithmetic** (`Cursors`, `Paging`, `Journals`, `OpenDocuments`, `Cashbook`,
  `CurrencyRates`). Cursor codecs down to base64 groups and decimal digits, keyset and offset paging, residual
  rollback, period arithmetic, rate precedence, half-up rounding.
- **Migrations, rate limiter, key rotation** (`Migrations`, `RateLimiter`, `KeyRotation`).

Clocks, random values and callback results are parameters. A stored SHA-256 value of a secret or of a request
stands for what it was taken of; the audit hash is a function parameter, assumed collision free only where a
lemma says so. Amounts are exact reals, dates and instants integers or calendar fields.

## Where the code does not do what one might expect

- Replaying a compact (payroll) record is not always stable: an explicit null among the retained effects or
  action hides an audit value the first time and not the second. `Replies.CompactReplayStable` gives the exact
  condition and `Replies.HiddenAuditValueCounterexample` an instance.
- An accepted journal draft may have unequal totals, by less than one increment
  (`JournalDrafts.AcceptedYetUnequal`). All accepted drafts with amounts in multiples of some step balance
  exactly if and only if that step is at least the increment (`JournalDrafts.GridBalancesExactly`).
- The load of an authorization code compares the session's expiry (src/odoo_mcp/app/shared_auth.py:485-497);
  the exchange at lines 510-539 does not. A code loaded in time issues tokens after its session has expired
  (`AuthorityCodes.ExpiredSessionIssues`); that it does not holds exactly for callers that exchange before the
  expiry (`AuthorityCodes.LifetimeKeptExactly`).
- A refresh that asks for a part of its scopes is issued all that the old token had
  (`AuthorityAnswers.IssuedPairRefreshes`), and an authorization carries all its client's scopes, whichever were
  requested (`AuthorityAnswers.AuthorizeAnswers`).
- An audit chain cut short still verifies (`AuditChain.PrefixVerifies`).
- A handle that was committed can be prepared again, and then names two rows
  (`AuthorityHandles.HandleCanBeReused`). It names one exactly when no row consumed it before it was prepared
  (`AuthorityHandles.PrepareNamesOneExactly`). Which of the two a commit reads is left to the database, so
  `CommitEnrollment` takes the picked row as a parameter; whichever it is, nothing changes
  (`AuthorityHandles.ReusedHandleCommits`).

## Model

| member | source | states |
|---|---|---|
| WriteSafety.ReservationsSettle | src/odoo_mcp/policy/write_safety.py:265-535 | Over every interleaving of runs, with crashes and lost commits: of two reservations with equal tenant, tool and key the earlier run itself stored succeeded or failed, and the later one read a clock at least 24 hours after the earlier. |
| WriteSafety.ExecuteAtMostOnce | src/odoo_mcp/policy/write_safety.py:340-535 | Two runs of one tenant, tool and key both enter `execute` only if the one that reserved first settled that way before the other reserved. |
| WriteSafety.StuckForever | src/odoo_mcp/storage/repositories.py:421-472 | A key left in progress by a run that ended, or left unknown, never executes again: whatever happens later, its row and holder never change and no new run enters `execute` under it. |
| WriteAnswers.OnlyEntitledRunsWrite | src/odoo_mcp/policy/write_safety.py:147-262 | Over every interleaving, a run reserves, enters `execute` or stores an outcome only for a call that holds the tool's write permission, an authorized positive company, the tool's capability and a non-blank key, has no reserved field in its payload, no preflight error and no dry run, of a tool whose risk and hints are those of a write. |
| WriteAnswers.EntitledCallsBegin | src/odoo_mcp/policy/write_safety.py:147-262 | Whatever happened before, exactly such calls are admitted to the reservation. |
| WriteAnswers.FirstGateAnswers | src/odoo_mcp/policy/write_safety.py:655-689 | A call is answered by the first gate it does not pass, with that gate's code; past all of them a dry run is prepared, a keyed call reserves, and one without a key is refused as not explicit. |
| WriteAnswers.RefusedCallAnswers | src/odoo_mcp/policy/write_safety.py:147-170 | A refused call answers that code, reserves nothing and leaves one rejected event. |
| WriteSafety.UnprovenKeyNeverRuns | src/odoo_mcp/storage/repositories.py:421-472 | Once a run reserved and ended without a proved outcome, no other run of its tenant, tool and key ever enters `execute`, whatever follows. |
| Retries.RetryAnswered | src/odoo_mcp/policy/write_safety.py:291-349 | Over every history a call answers by the last reservation of its tenant, tool and key alone: none, or one that ended well or failed 24 hours ago, and it reserves; another company or payload is a mismatch; nothing stored yet is busy; otherwise it replays that run's status, outcome, ids and error. |
| Retries.AuditedAnswer | src/odoo_mcp/policy/write_safety.py:291-349 | With its event committed a conflicted, replayed or refused run gives exactly the reply it stood before, and leaves one event and no row. |
| Retries.LostBeginGivesUp | src/odoo_mcp/policy/write_safety.py:314-322 | A reservation whose commit is lost is answered as failed before anything was attempted. |
| WriteSafety.RowsTruthful | src/odoo_mcp/storage/repositories.py:496-539 | Every stored row tells the truth about the run that holds its key: failed means `execute` was not entered or it proved a rejection, succeeded means it returned an applied write, everything else is unknown or in progress; in progress exactly when the response is null. |
| WriteSafety.AnswersTruthful | src/odoo_mcp/policy/write_safety.py:351-649 | A finished run's own reply agrees with what its write did, and says succeeded only when the run stored that same reply as succeeded. |
| WriteSafety.SuccessIsOnRecord | src/odoo_mcp/policy/write_safety.py:500-535 | After a succeeded reply the key's row is succeeded and holds that reply's persisted form, until a settled later reservation takes the key. |
| WriteSafety.FinishNeverRefused | src/odoo_mcp/storage/repositories.py:496-539 | In every reachable state the finish of a live run is accepted by the storage guards: it still owns its in-progress row and its fields were checked at reservation. |
| WriteSafety.Reachable | src/odoo_mcp/policy/write_safety.py:133-535 | The invariant behind these results holds after any sequence of admissions, steps, crashes and lost commits. |
| WriteSafety.ExecuteOutcomeOk | src/odoo_mcp/policy/write_safety.py:453-535 | Each way `execute` can end is given a state, an audit status, a reply and a fallback reply that are all truthful about it. |
| WriteSafety.PreWriteFailureOk | src/odoo_mcp/policy/write_safety.py:692-757 | A denial, error or cancellation before `execute` is recorded as failed with a reply that says nothing was attempted. |
| WriteSafety.BeginEffect | src/odoo_mcp/storage/execution.py:31-51 | A reservation transaction that succeeds either takes a free or expired final key and appends its attempted event, or changes nothing and reports the row that is there. |
| WriteAudit.AttemptsEqualReservations | src/odoo_mcp/storage/execution.py:31-51 | There are exactly as many attempted events in the log as reservations were ever made. |
| WriteAudit.RowsInStep | src/odoo_mcp/storage/execution.py:31-73 | For every row, under its owner's request id the log has one attempted event per reservation made and one outcome event per outcome stored, and a final row's outcome is among them with its key, status and response; with distinct request ids that is exactly one attempted event, and one outcome event or none. |
| WriteAudit.OutcomeClaimsStoredState | src/odoo_mcp/policy/write_safety.py:977-1053 | The idempotency state an outcome event claims is the state its transaction stores. |
| WriteAudit.ReplayTellsStoredOutcome | src/odoo_mcp/policy/write_safety.py:327-349 | Whatever persistence form either command uses, a replay answers the status, outcome, request id, company and error that the key's holder stored, and its event claims the stored state. |
| Coordinator.WriteSafetyCoordinator.Run | src/odoo_mcp/policy/write_safety.py:133-262 | The coordinator's code, run undisturbed, takes exactly the steps of the machine the safety results are about, on any journal state and for any way its awaits and transactions end. |
| Coordinator.WriteSafetyCoordinator.RunReserved | src/odoo_mcp/policy/write_safety.py:265-350 | The same from the reservation on: mismatch, busy, replay and reserved branches. |
| Coordinator.WriteSafetyCoordinator.RunPrepared | src/odoo_mcp/policy/write_safety.py:350-412 | The same from `prepare` on: needs-input, cancellation, denial and failure, each caught and finished as the source does. |
| Coordinator.WriteSafetyCoordinator.RunDry | src/odoo_mcp/policy/write_safety.py:172-222 | The same for a dry run: preview, needs-input, cancellation, denial and failure. |
| Coordinator.WriteSafetyCoordinator.RunValidated | src/odoo_mcp/policy/write_safety.py:413-451 | The same from revalidation on, each exception caught and finished as the source does. |
| Coordinator.WriteSafetyCoordinator.RunExecuting | src/odoo_mcp/policy/write_safety.py:453-535 | The same from `execute` on: applied, rejected, uncertain and cancelled writes each build the source's own state, status and reply. |
| Coordinator.WriteSafetyCoordinator.FinishPreWriteFailure | src/odoo_mcp/policy/write_safety.py:722-757 | A failure before `execute` is finished as failed, and answered or replaced by the fallback reply, exactly as the machine does. |
| Coordinator.WriteSafetyCoordinator.RecordPreWriteFailure | src/odoo_mcp/policy/write_safety.py:692-720 | A dry run's failure is only appended to the audit log; when that fails the answer says so. |
| Coordinator.WriteSafetyCoordinator.FinishAfterAttempt | src/odoo_mcp/policy/write_safety.py:759-788 | The finish stores the outcome and answers its reply, or answers the fallback when the transaction is refused or lost. |
| Coordinator.StepsRunOut | src/odoo_mcp/policy/write_safety.py:133-535 | Every step of a live run brings it strictly nearer its end: no run loops. |
| WriteAnswers.PrepareAnswers | src/odoo_mcp/policy/write_safety.py:351-412 | A prepared write that needs input is answered with its preview, stored failed, and never validated or executed; a failure answers the denial's own error or an unknown error; a cancellation is raised again. |
| WriteAnswers.ValidateAnswers | src/odoo_mcp/policy/write_safety.py:413-451 | `execute` is entered exactly when revalidation returned. |
| WriteAnswers.ExecuteAnswers | src/odoo_mcp/policy/write_safety.py:453-535 | Applied answers succeeded with its effects and references; only a proved rejection answers a known failure, with its own error; everything else is unknown. |
| WriteAnswers.DryRunAnswers | src/odoo_mcp/policy/write_safety.py:172-238 | A dry run answers a preview, a question or a failure, reserves nothing and stores nothing. |
| WriteAnswers.FinishAnswers | src/odoo_mcp/policy/write_safety.py:759-788 | In every reachable state a finish answers its reply when committed, its fallback when not, or raises the cancellation again. |
| WriteAnswers.EventTells | src/odoo_mcp/policy/write_safety.py:977-1053 | Every column of a run's event, and of its input: the request or its audit projection with the controls, the key only with the request. |
| ExecutionJournals.ExecutionJournal.Reserve | src/odoo_mcp/storage/repositories.py:385-472 | Statement by statement: lookup, deletion of an expired final row, insert or decision, with the whole new table stated. |
| ExecutionJournals.ReserveAnswers | src/odoo_mcp/storage/repositories.py:392-472 | Both ways, for all rows: reserved exactly when the key is free or its row succeeded or failed and expired; else a mismatch exactly when company or payload differ; else busy exactly while in progress; else a replay of the stored response. The new row and its 24 hours are stated, and every other row stays. |
| ExecutionJournals.ExecutionJournal.Begin | src/odoo_mcp/storage/execution.py:31-51 | Reservation and attempted event commit together or not at all, under every commit failure. |
| ExecutionJournals.ExecutionJournal.Finish | src/odoo_mcp/storage/execution.py:53-73 | Outcome and event commit together or not at all; only the owner's in-progress row is updated. |
| ExecutionJournals.FinishAnswers | src/odoo_mcp/storage/repositories.py:496-539 | An outcome is accepted exactly with a final state and a response from the owner and company of an in-progress row, of which it changes state and response alone. |
| Replies.FullReplayStable | src/odoo_mcp/policy/write_safety.py:803-919 | A full record restores to the retained reply, and persisting that reply gives the same record. |
| Replies.CompactRestore | src/odoo_mcp/policy/write_safety.py:834-919 | A compact record always restores, with status, outcome, ids and error fields kept. |
| Replies.CompactReplayStable | src/odoo_mcp/policy/write_safety.py:834-919 | Persisting a restored compact record gives the same record if and only if no retained effect or action holds an explicit null where the audit payload holds a value under the same key. |
| Replies.HiddenAuditValueCounterexample | src/odoo_mcp/policy/write_safety.py:846-860 | A concrete reply to a payroll command with such a null, whose replay is recorded differently. |
| Replies.PayrollRetainsCompactKeys | src/odoo_mcp/mcp/payroll_writes.py:59-75 | The two key sets a payroll command retains cover every key a compact record looks up. |
| Replies.RestoreKeepsVerdict | src/odoo_mcp/policy/write_safety.py:803-919 | In whichever form a record was stored and is read, what is restored has its status, outcome, ids and error. |
| Replies.RetainedReply | src/odoo_mcp/policy/write_safety.py:800-832 | What is kept of a reply: its verdict and references, exactly the retained keys of action and effects, and no artifact once any set is given. |
| Replies.CompactNames | src/odoo_mcp/policy/write_safety.py:846-860 | A compact identifier is the retained effect, else the retained action's, else the audit payload's. |
| Replies.SelectedAfterRestore | src/odoo_mcp/policy/write_safety.py:846-860 | What a compact identifier reads as after a replay: the stored value, or else the audit payload's. |
| Replies.ValidateDump | src/odoo_mcp/policy/write_safety.py:72-103 | Strict validation reads back every valid reply from its own dump. |
| Replies.ValidateAccepts | src/odoo_mcp/policy/write_safety.py:72-103 | And it accepts nothing else: every field of an accepted mapping is a reply field with the accepted reply's own value. |
| PayslipLocks.LockExcludes | src/odoo_mcp/mcp/payroll_writes.py:77-96 | Over every interleaving of entries and exits no two holders share a key, and the active set is exactly the keys held: nothing leaks. |
| PayslipLocks.AcquiredIffFree | src/odoo_mcp/mcp/payroll_writes.py:85-96 | An entry acquires the lock exactly when nobody is inside with its key. |
| PayrollWrites.OneWritePerPayslip | src/odoo_mcp/mcp/payroll_writes.py:389-434 | Over every interleaving of payroll writes, other tools' writes, coordinator steps, crashes, returns and restarts: of the runs admitted by events that ask for one payslip of one company of one tenant, at most one is past the gate and not ended, whatever idempotency keys they carry. |
| PayrollWrites.RefusedExactlyWhenHeld | src/odoo_mcp/mcp/payroll_writes.py:411-434 | A payroll write is handed on as refused, with the busy code, exactly when an earlier one of the same tenant, company and payslip still holds the lock; a dry run never is. |
| PayrollWrites.ReturnGivesBack | src/odoo_mcp/mcp/payroll_writes.py:85-96 | An ended run's return gives back its own hold and no other; a restart gives back all. |
| PayrollWrites.RefusedEntryNeverWrites | src/odoo_mcp/mcp/payroll_writes.py:411-434 | A payroll write whose entry found the lock taken never reserves a key, never executes and stores nothing. |
| PayrollWrites.Reachable | src/odoo_mcp/mcp/payroll_writes.py:389-434 | The table invariant, the lock invariant and the link between a run and its entry hold after any such events. |
| PayslipLocks.PayslipLockRegistry.Enter | src/odoo_mcp/mcp/payroll_writes.py:85-92 | Entering adds a free key and reports whether it was free. |
| PayslipLocks.PayslipLockRegistry.Leave | src/odoo_mcp/mcp/payroll_writes.py:93-96 | Leaving gives the key back only if this entry acquired it. |
| AuthorityRuns.Reachable | src/odoo_mcp/app/shared_auth.py:374-458 | The cross-table invariant holds after any sequence of the thirteen authority transactions. |
| AuthorityRuns.ConnectorAndGrantAgree | src/odoo_mcp/app/shared_auth.py:374-458 | A connector has at most one grant ever, is active exactly while that grant is, and has none while pending. |
| AuthorityRuns.IntegrityCheckPasses | src/odoo_mcp/storage/service.py:179-205 | Every connector row of every reachable state passes the storage integrity check. |
| AuthorityRuns.RevokedGrantsHaveNoLiveTokens | src/odoo_mcp/app/shared_auth.py:745-775 | Every token stays within its grant's scopes, and each token of a revoked grant is revoked. |
| AuthorityRuns.OneLiveTokenPerKind | src/odoo_mcp/app/shared_auth.py:556-596 | A grant has at most one live access token and at most one live refresh token. |
| AuthorityRuns.OneSessionEverAuthorized | src/odoo_mcp/app/shared_auth.py:374-458 | Of all sessions bound to one connector at most one ever leaves the waiting state. |
| AuthorityRuns.ResolvedAuthorityComplete | src/odoo_mcp/storage/connections.py:147-165 | Whatever row an authorized request resolves, its selection is non-empty, within the discovery and contains the default, and its one grant is the caller's. |
| AuthorityRuns.IssuedPairLives | src/odoo_mcp/app/shared_auth.py:680-743 | A token pair just issued is usable by its client at once, each token exactly until its own lifetime ends. |
| AuthorityRuns.CodeIssuesAtMostOnce | src/odoo_mcp/app/shared_auth.py:510-539 | An authorization code that issued tokens is refused ever after (compare section 4.1.2 of RFC 6749). |
| AuthorityRuns.RefreshTokenIssuesAtMostOnce | src/odoo_mcp/app/shared_auth.py:556-596 | A refresh token that was exchanged is refused ever after (compare sections 6 and 10.4 of RFC 6749). |
| AuthorityRuns.RevokedConnectorNeverAuthorizes | src/odoo_mcp/app/shared_auth.py:680-775 | No token of a revoked connector is usable again, whatever transactions follow. |
| AuthorityCodes.LoadedCodeExchange | src/odoo_mcp/app/shared_auth.py:485-539 | A code object loaded while its session was authorized and unexpired, exchanged after any further transactions: refused as invalid unless the session is unspent and an active grant of the client's exists, a key violation unless the pair is fresh, and otherwise issued. The time of the exchange plays no part and no trigger aborts. |
| AuthorityCodes.LifetimeKeptExactly | src/odoo_mcp/app/shared_auth.py:485-539 | Issuing only within the session's lifetime fails of the code; it holds if and only if the caller exchanges before the session's expiry, or there is nothing to exchange. |
| AuthorityCodes.ExpiredSessionIssues | src/odoo_mcp/app/shared_auth.py:485-539 | A run from the empty store whose code, loaded one tick before its session's expiry, issues tokens at the expiry. |
| AuthorityHandles.NamesOneExactly | src/odoo_mcp/app/shared_lifecycle.py:75-232 | In every reachable state a handle names at most one row if and only if it was not consumed by one row and prepared again into another. |
| AuthorityHandles.PrepareNamesOneExactly | src/odoo_mcp/app/shared_lifecycle.py:75-176 | After an accepted preparation the handle names one row if and only if no row had consumed it before. |
| AuthorityHandles.ReusedHandleCommits | src/odoo_mcp/app/shared_lifecycle.py:178-232 | Under a reused handle no commit changes anything, whichever row is picked, and it is accepted exactly when the picked row consumed the handle, is live, and holds this very selection. |
| AuthorityHandles.HandleCanBeReused | src/odoo_mcp/app/shared_lifecycle.py:75-232 | Prepare, commit and prepare again under one handle reach such a state. |
| AuthorityAnswers.AuthorizeAnswers | src/odoo_mcp/app/shared_auth.py:245-286 | Accepted exactly for the right resource, a long enough challenge, and requested scopes within the client's valid ones; the one new session waits ten minutes and carries all the client's scopes. |
| AuthorityAnswers.BindAnswers | src/odoo_mcp/app/shared_auth.py:288-305 | Accepted exactly for a waiting, unexpired, unbound session, or one already bound to the same connector; only the first binding changes it. |
| AuthorityAnswers.ReplaceAnswers | src/odoo_mcp/app/shared_auth.py:339-372 | In every reachable state accepted exactly for the client of an active grant on the connector and a waiting, unexpired session of its own. |
| AuthorityAnswers.RevokeConnectorAnswers | src/odoo_mcp/app/shared_auth.py:460-483 | In every reachable state accepted exactly for a caller with a grant of the connector, which then is revoked with all its grants and tokens, and no other row changes. |
| AuthorityAnswers.RevokeTokenAnswers | src/odoo_mcp/app/shared_auth.py:630-650 | Any known token ends its connector, its grants and all their tokens, and no other row changes. |
| AuthorityAnswers.ActivateAnswers | src/odoo_mcp/app/shared_auth.py:374-458 | In every reachable state accepted exactly with consent for a waiting, unexpired session bound to a pending, unexpired connector with a selection, under an unused grant id and code; states the new grant, connector and session, the end of the connector the session replaces, and that no other row changes. |
| AuthorityAnswers.ReplacementEndsTheReplaced | src/odoo_mcp/app/shared_auth.py:434-447 | After such an activation the replaced connector is revoked with every grant and token under it, and whatever follows no token under it, old or new, is usable. |
| AuthorityAnswers.CodeExchangeIssues | src/odoo_mcp/app/shared_auth.py:510-539 | A successful exchange consumes the one matched session and adds the pair, of one hour and thirty days, of its active grant; no other row changes. |
| AuthorityAnswers.RefreshAnswers | src/odoo_mcp/app/shared_auth.py:556-596 | In every reachable state a refresh is accepted exactly for an unrotated, unrevoked, unexpired refresh token of the caller's, every wanted scope held and persisted, and an unused pair; a key violation only for want of the last; states the whole new token table. |
| AuthorityAnswers.BearerUsable | src/odoo_mcp/app/shared_auth.py:680-743 | In every reachable state a token, of the named client if any, that was neither rotated nor revoked and is in time is usable, and no other is: its grant is then active, on an active connector of its tenant. |
| AuthorityAnswers.IssuedPairRefreshes | src/odoo_mcp/app/shared_auth.py:556-596 | A pair just issued is refreshed, for all its scopes or any of them, exactly until thirty days have passed, into a pair with all of them. |
| AuthorityAnswers.PrepareAnswers | src/odoo_mcp/app/shared_lifecycle.py:75-176 | In every reachable state accepted exactly with a long enough handle and a positive discovery, for a new row or for the live row that the handle names for the same request. |
| AuthorityAnswers.CommitAnswers | src/odoo_mcp/app/shared_lifecycle.py:178-232 | Accepted exactly for a live row under the handle and a choice within its discovery, stored once and repeated only unchanged. |
| AuthorityAnswers.DistinctInOrder | src/odoo_mcp/app/shared_lifecycle.py:185-185 | A stored choice keeps the order in which its ids were first chosen. |
| AuthorityAnswers.ExpireAnswers | src/odoo_mcp/app/shared_lifecycle.py:234-245 | Exactly the pending rows that are due expire and give up their handles. |
| AuthorityAnswers.DiscardAnswers | src/odoo_mcp/app/shared_lifecycle.py:247-261 | In every reachable state exactly a pending row of the given tenant is deleted. |
| AuthoritySteps.ActivateKeeps | src/odoo_mcp/app/shared_auth.py:374-458 | Activation, with or without a superseded connector, keeps the cross-table invariant. |
| AuthoritySteps.RevokeKeeps | src/odoo_mcp/app/shared_auth.py:745-775 | Revocation keeps the cross-table invariant. |
| AuthoritySteps.ExchangeCodeKeeps | src/odoo_mcp/app/shared_auth.py:510-539 | A code exchange keeps the cross-table invariant. |
| AuthoritySteps.RefreshKeeps | src/odoo_mcp/app/shared_auth.py:556-596 | A refresh exchange keeps the cross-table invariant. |
| AuthoritySteps.CodeMatchUnique | src/odoo_mcp/app/shared_auth.py:510-530 | At most one session and grant match a code, so the unchecked row count of its UPDATE is one. |
| AuthorityStore.ConnectorRevocable | src/odoo_mcp/storage/migrations.py:303-313 | The revocation UPDATE of a live connector passes its triggers. |
| AuthorityStore.GrantsRevocable | src/odoo_mcp/storage/migrations.py:422-445 | Once its connector is revoked, a grant's revocation passes the trigger that protects active connectors. |
| AuthorityStore.ActivationAllowed | src/odoo_mcp/storage/migrations.py:383-421 | With the grant inserted first, the connector's activation passes its triggers. |
| AuthorityStore.RotationUpdateAllowed | src/odoo_mcp/storage/migrations.py:401-421 | An UPDATE that leaves status and selection alone, as key rotation does, passes the triggers on every stored row. |
| AuthorityTables.ConnectorTriggers | src/odoo_mcp/storage/migrations.py:303-330 | An ended row keeps its status, an active one only ends, and a row is or becomes active only with a selection, its handle given up and an active grant. |
| AuthorityTables.RowTriggers | src/odoo_mcp/storage/migrations.py:445-464 | A token is inserted exactly under a grant that has all its scopes, a grant exactly under a known client and a connector of its tenant. |
| AuthorityStore.AuthorityStore.RegisterClient | src/odoo_mcp/app/shared_auth.py:226-243 | Inserts an unknown client, refuses a known id, keeps the invariant. |
| AuthorityStore.AuthorityStore.Authorize | src/odoo_mcp/app/shared_auth.py:245-286 | Refuses bad resource, scopes or challenge; otherwise adds one waiting session; keeps the invariant. |
| AuthorityStore.AuthorityStore.BindConnector | src/odoo_mcp/app/shared_auth.py:288-305 | Statement by statement equal to its specification, without aborting; binding twice to one connector is accepted. |
| AuthorityStore.AuthorityStore.AuthorizeReplacement | src/odoo_mcp/app/shared_auth.py:339-372 | Statement by statement equal to its specification: only a holder of active authority may mark a session as replacing it. |
| AuthorityStore.AuthorityStore.ActivateConnector | src/odoo_mcp/app/shared_auth.py:374-458 | Grant, connector, superseded connector and session in the source's order equal one whole-effect specification; no statement aborts. |
| AuthorityStore.AuthorityStore.RevokeConnector | src/odoo_mcp/app/shared_auth.py:460-483 | Revokes only for a caller with a grant of that connector, tenant and client. |
| AuthorityStore.AuthorityStore.RevokeToken | src/odoo_mcp/app/shared_auth.py:630-650 | Revoking a token revokes its connector, its grants and all their tokens; an unknown token changes nothing. |
| AuthorityStore.AuthorityStore.ExchangeAuthorizationCode | src/odoo_mcp/app/shared_auth.py:510-539 | Consumes the matching session and inserts one access and one refresh token; an unmatched code changes nothing. |
| AuthorityStore.AuthorityStore.ExchangeRefreshToken | src/odoo_mcp/app/shared_auth.py:556-596 | Rotates the refresh token, ends the grant's access tokens and inserts a new pair, within the old scopes. |
| AuthorityStore.AuthorityStore.PrepareEnrollment | src/odoo_mcp/app/shared_lifecycle.py:75-176 | Inserts a pending connector, or answers the live one that the handle already names for the same request. |
| AuthorityStore.AuthorityStore.CommitEnrollment | src/odoo_mcp/app/shared_lifecycle.py:178-232 | Stores a selection within the discovered companies once; repeating it is accepted only unchanged. |
| AuthorityStore.AuthorityStore.ExpirePending | src/odoo_mcp/app/shared_lifecycle.py:234-245 | Expires exactly the pending connectors due by now and answers how many there were. |
| AuthorityStore.AuthorityStore.DiscardPending | src/odoo_mcp/app/shared_lifecycle.py:247-261 | Deletes only a pending connector without grants; the deletion never trips a trigger. |
| AuthorityStore.RevokeInTransaction | src/odoo_mcp/app/shared_auth.py:745-775 | Connector first, then grants, then each grant's tokens: every statement passes its trigger, and together they are one revocation. |
| Timestamps.ExpiryAgainstTimestamp | src/odoo_mcp/app/shared_auth.py:293-297 | Comparing an `isoformat()` expiry with `timestamp()` as text agrees exactly with time order, though the two formats differ. |
| Timestamps.ExpiryAgainstIsoformat | src/odoo_mcp/app/shared_lifecycle.py:234-245 | Comparing two `isoformat()` texts agrees exactly with time order, with or without microseconds. |
| Timestamps.SecondsOrder | src/odoo_mcp/storage/json_support.py:26-30 | Lexicographic order of valid calendar fields is the order of instants, across months and leap years. |
| Timestamps.TimestampReadsBack | src/odoo_mcp/storage/json_support.py:26-34 | Parsing a stored `timestamp` gives the instant it was written from. |
| Timestamps.IsoformatReadsBack | src/odoo_mcp/storage/json_support.py:33-34 | Parsing a stored `isoformat` text gives the instant it was written from. |
| AuditChain.AppendsAlwaysVerify | src/odoo_mcp/storage/audit.py:117-234 | Whatever events any tenants append in whatever order, every tenant's chain verifies. |
| AuditChain.LastHashFixesTheChain | src/odoo_mcp/storage/audit.py:211-234 | With a collision-free hash that is never the genesis value, two verifying chains with one last hash have the same length and, row by row, equal links, instants and columns, and payloads that differ at most under sensitive keys. |
| AuditChain.PrefixVerifies | src/odoo_mcp/storage/audit.py:211-234 | Rows dropped from the end leave a chain that verifies: only a last hash kept elsewhere can tell. |
| AuditChain.HashesDistinct | src/odoo_mcp/storage/migrations.py:54-54 | No two rows of a verifying chain have one hash. |
| AuditChain.AppendNeverCollides | src/odoo_mcp/storage/migrations.py:54-54 | The unique index on a tenant's hashes never refuses an acceptable append. |
| AuditChain.ChainsHoldTheEvents | src/odoo_mcp/storage/audit.py:117-186 | A tenant's rows are one for each of its complete events, in order: every column as given, payloads redacted, an error reduced to its public code; other tenants' appends change nothing. |
| AuditChain.AppendAnswers | src/odoo_mcp/storage/audit.py:117-186 | Behind any history an append is accepted exactly when its identity fields are there and its company, if any, is positive. |
| AuditChain.StoredRowsAreSafe | src/odoo_mcp/storage/audit.py:23-75 | No stored row holds a value under a sensitive key at any depth, nor an error text other than that of a public code. |
| AuditChain.ReadBackIsWhatWasHashed | src/odoo_mcp/storage/audit.py:40-107 | Redacting what was stored and read back gives what was hashed. |
| AuditChain.AuditRepository.Append | src/odoo_mcp/storage/audit.py:117-186 | Appends one row behind the tenant's last hash, or refuses and changes nothing. |
| AuditChain.AuditRepository.ListForTenant | src/odoo_mcp/storage/audit.py:195-202 | The tenant's rows in id order. |
| AuditChain.AuditRepository.VerifyChain | src/odoo_mcp/storage/audit.py:211-234 | Accepts exactly the chains whose every row links to the one before and rehashes to its own hash; answers the count and last hash. |
| Redaction.RedactCleans | src/odoo_mcp/storage/json_support.py:61-73 | After redaction every sensitive key at every depth holds only the placeholder. |
| Redaction.SensitiveExactly | src/odoo_mcp/storage/json_support.py:10-19 | A key is sensitive exactly when it contains one of the eight named parts, in whatever case. |
| Redaction.RedactKeepsTheRest | src/odoo_mcp/storage/json_support.py:61-73 | Every scalar that no sensitive key leads to is kept where it was, and nothing is added. |
| Redaction.RedactFixesExactlyClean | src/odoo_mcp/storage/json_support.py:61-73 | Redaction leaves a payload as it would be reread if and only if it was clean already. |
| Redaction.RedactionIsStable | src/odoo_mcp/storage/json_support.py:47-73 | A redacted payload rereads unchanged and redacting it again changes nothing. |
| Base64Text.DecodesWhatWasEncoded | src/odoo_mcp/adapters/odoo/accounting.py:578-592 | Unpadded URL-safe base64 of any ASCII text decodes to it (sections 3.2 and 5 of RFC 4648). |
| Cursors.NumberCursorRoundTrip | src/odoo_mcp/adapters/odoo/accounting.py:578-601 | An identifier or offset cursor decodes to its number when that is positive, and is refused for zero. |
| Cursors.PositionRoundTrip | src/odoo_mcp/workflows/accounting/journals.py:42-73 | An entry or line cursor decodes to its position; a line cursor is refused when either part is zero. |
| Cursors.PositionAccepted | src/odoo_mcp/workflows/accounting/journals.py:47-73 | A journal cursor is accepted exactly as the version mark, a kind, and one number from zero on or two positive ones. |
| Cursors.RatesCursorBound | src/odoo_mcp/workflows/accounting/currency_rates.py:35-70 | A rate cursor decodes to its offset under its own request and is refused under every other request. |
| Cursors.RatesAccepted | src/odoo_mcp/workflows/accounting/currency_rates.py:35-70 | A rate cursor is accepted exactly when it unseals to the request's own binding and one positive offset. |
| Cursors.NumberAccepted | src/odoo_mcp/adapters/odoo/accounting.py:578-601 | A number cursor is accepted exactly when it unseals to the version mark and one positive number. |
| Paging.PageContinues | src/odoo_mcp/adapters/odoo/accounting.py:686-725 | Any accepted page behind the records so far keeps ids strictly increasing, and its next cursor is that of its last record. |
| Paging.ReadPage | src/odoo_mcp/adapters/odoo/accounting.py:686-725 | A page with a next cursor holds exactly `limit` records. |
| Paging.PageAnswers | src/odoo_mcp/adapters/odoo/accounting.py:686-725 | An answer is a page exactly when it has at most one row too many, positive rising ids behind the cursor, and valid records; the page is its first rows, with a cursor exactly when there was one more. |
| Paging.Collect | src/odoo_mcp/adapters/odoo/accounting.py:1212-1238 | The loop without a repeat check ends, after at most bound / limit + 1 requests, with the collected pages or the first error. |
| Paging.CollectedIncreases | src/odoo_mcp/workflows/accounting/journals.py:151-168 | Whatever the server answers, a collected result is strictly increasing in id and within the bound. |
| Paging.CollectReturnsTheTable | src/odoo_mcp/adapters/odoo/accounting.py:686-725 | Over a fixed table the loop returns every in-scope record once in id order if and only if the bound allows; else it reports too many. |
| Paging.RepetitionNeverSeen | src/odoo_mcp/workflows/accounting/invoicing.py:55-141 | Behind a page read the repeated-cursor and repeated-id checks never fire: the loops with and without them give one result. |
| Paging.CollectWatched | src/odoo_mcp/workflows/accounting/cashbook.py:65-100 | The loop with seen ids and cursors, against its specification. |
| Paging.CollectedValid | src/odoo_mcp/adapters/odoo/accounting.py:708-725 | Everything collected passed normalisation and company scope. |
| OffsetListings.PagesConcatenate | src/odoo_mcp/workflows/accounting/invoicing.py:276-281 | For any listing and page size, the pages reached by following offset cursors concatenate to the whole listing. |
| OffsetListings.OffsetCodecFaithful | src/odoo_mcp/workflows/accounting/cashbook.py:103-128 | Cashbook and document cursors are such offset cursors. |
| OffsetListings.RatesCodecFaithful | src/odoo_mcp/workflows/accounting/currency_rates.py:35-70 | So are rate cursors, under their own request. |
| JournalListing.EntryPagesConcatenate | src/odoo_mcp/workflows/accounting/journals.py:169-247 | Whatever order the entries were read in, following entry cursors lists each once, by date and then id, and that order is the only one. |
| JournalListing.PagesAddUp | src/odoo_mcp/workflows/accounting/journals.py:111-133 | Every page of an entry states the totals of the lines that all its pages show together. |
| JournalListing.LinePagesConcatenate | src/odoo_mcp/workflows/accounting/journals.py:111-133 | Following an entry's line cursors gives all its lines, in order. |
| JournalListing.LineCursorServed | src/odoo_mcp/workflows/accounting/journals.py:216-232 | A line cursor is answered with the lines of its own entry from its offset on, and no next page. |
| JournalListing.ItemShows | src/odoo_mcp/workflows/accounting/journals.py:111-133 | An item is its entry's, shows up to a hundred of its lines in order, and says exactly when there are more. |
| JournalListing.ListingAnswers | src/odoo_mcp/workflows/accounting/journals.py:215-247 | A cursor is refused exactly when it does not decode or points outside the listing or the entry. |
| Rounding.RoundedNear | src/odoo_mcp/workflows/accounting/journals.py:283-284 | Half-up rounding is odd and never further than half an increment away. |
| Rounding.RoundedIdempotent | src/odoo_mcp/workflows/accounting/journals.py:283-284 | Rounding twice is rounding once. |
| Rounding.RoundedAlike | src/odoo_mcp/workflows/accounting/journals.py:283-284 | Amounts that round alike are strictly less than one increment apart. |
| Rounding.RoundedMultiplesAlike | src/odoo_mcp/workflows/accounting/journals.py:283-284 | Amounts in whole increments round alike exactly when equal. |
| Rounding.SomeNeighboursAlike | src/odoo_mcp/workflows/accounting/journals.py:283-284 | Some two consecutive multiples of any step finer than the increment round alike. |
| JournalDrafts.AcceptedNearlyBalanced | src/odoo_mcp/workflows/accounting/journals.py:353-361 | An accepted draft has |debit - credit| < increment. |
| JournalDrafts.AcceptedYetUnequal | src/odoo_mcp/workflows/accounting/journals.py:353-361 | That bound is not zero: a concrete accepted draft with unequal totals. |
| JournalDrafts.WholeIncrementsBalanceExactly | src/odoo_mcp/workflows/accounting/journals.py:353-361 | With amounts in whole increments an accepted draft balances exactly, and one refused as unbalanced does not. |
| JournalDrafts.GridBalancesExactly | src/odoo_mcp/workflows/accounting/journals.py:353-361 | "Every accepted draft with amounts in multiples of a step balances exactly" holds if and only if the step is at least the currency's increment. |
| JournalDrafts.FineGridUnbalances | src/odoo_mcp/workflows/accounting/journals.py:353-361 | For every step finer than the increment, an accepted draft with amounts in that step and unequal totals. |
| JournalDrafts.AcceptedPostsClean | src/odoo_mcp/workflows/accounting/journals.py:415-451 | An accepted draft read back unchanged posts with no findings. |
| JournalDrafts.CleanExactly | src/odoo_mcp/workflows/accounting/journals.py:431-451 | Posting has no findings exactly for at least two one-sided lines whose rounded totals agree. |
| JournalDrafts.DraftAnswers | src/odoo_mcp/workflows/accounting/journals.py:287-392 | A draft is accepted exactly when its lines are proper, all it names is offered and its rounded totals agree; which error is told first otherwise. |
| JournalDrafts.PostAnswers | src/odoo_mcp/workflows/accounting/journals.py:415-451 | Posting is for manual drafts, and each finding is made exactly for its own reason. |
| OpenDocuments.ResidualAsOf | src/odoo_mcp/workflows/accounting/invoicing.py:195-210 | Rolled back over the later partials in any order, a line's residuals are its original amounts settled by exactly the partials dated on or before the date: by company amount, and by the debit or credit currency amount of its own side. |
| OpenDocuments.DocumentAsOf | src/odoo_mcp/workflows/accounting/invoicing.py:195-222 | A document's reported residual is the sum of its own lines so settled. |
| OpenDocuments.TotalsConserve | src/odoo_mcp/workflows/accounting/invoicing.py:211-222 | Per-document totals add up to the sum of the lines' residuals, and each is the sum of its own lines. |
| OpenDocuments.RollBack | src/odoo_mcp/workflows/accounting/invoicing.py:195-210 | The partial loop leaves every residual with each partial undone on both sides. |
| OpenDocuments.DocumentTotals | src/odoo_mcp/workflows/accounting/invoicing.py:211-222 | Both grouping dictionaries, or an error as soon as a line lies outside the documents. |
| Sums.SumPermuted | src/odoo_mcp/workflows/accounting/invoicing.py:195-210 | Sums do not depend on the order of their terms. |
| Sums.GroupsConserve | src/odoo_mcp/workflows/accounting/invoicing.py:211-222 | Grouping by key loses nothing: the groups' totals add up to the sum of all. |
| Cashbook.ClosingIsTheBalance | src/odoo_mcp/workflows/accounting/cashbook.py:211-252 | Opening plus debit less credit is the balance of every selected line up to the end of the period. |
| Cashbook.ReportCounts | src/odoo_mcp/workflows/accounting/cashbook.py:211-252 | Opening, debit, credit and count each sum over exactly the company lines of the chosen journals and partners on their side of the period. |
| Cashbook.CarriesForward | src/odoo_mcp/workflows/accounting/cashbook.py:211-252 | A period opens with what the period before it closed with. |
| Cashbook.PeriodsAdd | src/odoo_mcp/workflows/accounting/cashbook.py:211-252 | Two adjacent periods together report what one period over both does. |
| Cashbook.CollectLines | src/odoo_mcp/workflows/accounting/cashbook.py:65-100 | The loop over line pages, with its check of every line and its seen ids and cursors, against its specification. |
| Cashbook.LinesExactly | src/odoo_mcp/workflows/accounting/cashbook.py:65-100 | It returns lines if and only if the plain collection does and every line of it is the company's with balance = debit - credit and both non-negative; then the same lines: its repetition checks never fire. |
| Cashbook.CollectedClosing | src/odoo_mcp/workflows/accounting/cashbook.py:202-252 | The report is made exactly when the plain collection succeeds and each of its lines is the company's with neither side negative and debit = balance + credit; its closing is then the balance of those up to the end of the period. |
| CurrencyRates.ByDate | src/odoo_mcp/workflows/accounting/currency_rates.py:201-206 | The fold keeps for each date that has a rate the root company's own where there is one, and of those alike the highest id. |
| CurrencyRates.OrderDoesNotMatter | src/odoo_mcp/workflows/accounting/currency_rates.py:201-206 | The fold gives one result whatever order the rates are read in. |
| CurrencyRates.EffectiveAtStart | src/odoo_mcp/workflows/accounting/currency_rates.py:207-217 | The rate at the start is the best one of the latest date by then; missing exactly when there is none. |
| CurrencyRates.HistoryListsEachDateOnce | src/odoo_mcp/workflows/accounting/currency_rates.py:218-222 | The history lists for each date of the period that has a rate exactly its prevailing one, latest first. |
| Migrations.AlwaysAPrefix | src/odoo_mcp/storage/migrations.py:493-535 | Any number of runs of any releases, crashed, failed or concurrent, keep the schema equal to the first k migrations applied once each in order, where k is the recorded length, and k never falls. |
| Migrations.RerunCompletes | src/odoo_mcp/storage/migrations.py:493-535 | From any such state a run left alone completes the schema and finishes. |
| Migrations.UnknownHistoryUntouched | src/odoo_mcp/storage/migrations.py:510-521 | While any recorded identifier or checksum is not the one the list has in its place, nothing is ever changed and no run finishes. |
| Migrations.CheckAnswers | src/odoo_mcp/storage/migrations.py:510-521 | The history is refused exactly then; a changed checksum is told only when all identifiers match. |
| Migrations.ApplyAt | src/odoo_mcp/storage/migrations.py:523-535 | A migration takes effect exactly when its statements succeed and it is the next one; otherwise the database is as before. |
| Migrations.SQLiteDatabase.ApplyOne | src/odoo_mcp/storage/migrations.py:525-533 | Statements in order, then the history row: all of it or nothing. |
| Migrations.SQLiteDatabase.ApplyMigrations | src/odoo_mcp/storage/migrations.py:493-535 | The whole loop equals the machine's steps for one run, with the same errors. |
| RateLimiter.NoWindowOverfull | src/odoo_mcp/app/shared.py:312-325 | No window of the limiter's length, wherever it ends, holds more than the allowed number of accepted requests. |
| RateLimiter.AcceptedSpread | src/odoo_mcp/app/shared.py:312-325 | Any allowed + 1 consecutive accepted requests span at least a whole window. |
| RateLimiter.QueueIsRecentHistory | src/odoo_mcp/app/shared.py:316-319 | A client's queue is always its accepted history after the last cutoff. |
| RateLimiter.RefusedExactlyWhenFull | src/odoo_mcp/app/shared.py:319-325 | A request is refused exactly when the allowed number was accepted in the last window. |
| RateLimiter.SharedRateLimitMiddleware.Call | src/odoo_mcp/app/shared.py:312-325 | One call leaves exactly the queues, and gives exactly the answer, of its specification: only its own client's queue changes, and nothing for a path outside the limited ones. |
| RateLimiter.ClientsApart | src/odoo_mcp/app/shared.py:312-325 | However the requests of many clients interleave, each client's queue and passes are those of a limiter of its own; only clients without a host share one, with the host "unknown". |
| RateLimiter.NoClientOverfull | src/odoo_mcp/app/shared.py:312-325 | Over any interleaving, no window holds more than the allowed number of one client's passes. |
| RateLimiter.PassesExactly | src/odoo_mcp/app/shared.py:312-325 | Over any interleaving, the next request passes if and only if no limited path is a prefix of its own or its own client has room in the last window. |
| KeyRotation.RotationFinishes | src/odoo_mcp/storage/connections.py:272-302 | With every stale record readable, a tenant rotation leaves all its records at the active version with their plaintexts kept, answers the number stale at the start, and its new log entries name exactly those records, each once. |
| KeyRotation.RerunDoesTheRest | src/odoo_mcp/storage/connections.py:272-302 | Stopped after any record and run again it does the rest: the counts add up, and the entries of both runs together name every record stale at the start exactly once. |
| KeyRotation.UnreadableStops | src/odoo_mcp/storage/connections.py:193-198 | At the first record that does not decrypt it stops, with those before it rotated and logged once each, and the rest untouched. |
| KeyRotation.RotationsKeepSecrets | src/odoo_mcp/storage/connections.py:167-255 | Over any interleaving of rotations no record's plaintext or settings change, and the log grows by exactly the records made current. |
| KeyRotation.RotateAnswers | src/odoo_mcp/storage/connections.py:167-255 | A rotation rewrites exactly a stale record that opens for its tenant, record and version, under the active key with the same plaintext; every refusal has its own condition, and nothing else changes. |
| KeyRotation.EncryptedConnectionRepository.Rotate | src/odoo_mcp/storage/connections.py:167-255 | One rotation re-encrypts a stale record and logs it, or changes nothing. |
| KeyRotation.EncryptedConnectionRepository.RotateTenant | src/odoo_mcp/storage/connections.py:272-302 | The loop over the stale records equals its specification for the listed ids. |

## Left out

- PostgreSQL: authority results are for SQLite's serial write transactions; the exchanges do not check row counts.
- HTTP and JSON transports, enrollment pages, cookies, DNS pinning, the ASGI composition, CLI entry points and scripts.
- Business callbacks: `prepare`, `validate_current_state` and `execute` end in any way; a `KnownWriteFailure` is taken to mean nothing was applied (src/odoo_mcp/policy/write_safety.py:64-65).
- SHA-256, AES-GCM and random values: an injective hash, an abstract authenticated encryption, fresh values as parameters.
- JSON text syntax and number formats: a payload is a value, a mapping has no key order, tuples reread as lists.
- Message and hint texts (abbreviated where a reply carries one), Pydantic coercions, Markdown artifacts, the tool registry.
- Row timestamps other than expiries, and audit events of the authority transactions.
- Decimal context precision: amounts are exact.
- Proposals, artifacts, the capability cache, backup and restore, and the legacy connector import of the third migration.
- Reports, bank reconciliation matching, the payroll reader and payment registration previews.
- Redaction.RedactCleans: keys are folded for ASCII letters only; other letters that fold to ASCII are not modelled.
- Cursors.NumberCursorRoundTrip: decoding models ASCII payloads only; other digits that `int` accepts are not modelled, nor is the 128-character limit on a requested cursor.
- Timestamps.TimestampReadsBack: of the texts `fromisoformat` accepts only the two the server writes are parsed; conversion from other time zones is a parameter.
- AuditChain.AuditRepository.Append: a time without a zone is refused by the source before the append; the parameter is already in UTC.
- KeyRotation.EncryptedConnectionRepository.RotateTenant: the records are taken in any order rather than by id, which is more general.
- Paging.ReadPage: the server answer is arbitrary; model read permission and the company check before the request are not modelled.
- JournalListing.EntryPagesConcatenate: the server answers every request of one listing alike; entries created or changed between two pages are not modelled.
- AuthorityStore.RotationUpdateAllowed: the credential columns a rotation writes are not modelled, so its UPDATE shows here as one that changes no modelled column.
- Cashbook.CollectLines: a page read never exceeds its limit, so the loop's own check of the page size is not written out.
- PayrollWrites.OneWritePerPayslip: one process with one lock registry; two processes over one database share only the idempotency table.
- Cashbook.ClosingIsTheBalance: the items' order in the report is not modelled; totals do not depend on it.
