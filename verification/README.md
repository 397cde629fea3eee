# Identity and workspace verification model

A Dafny model of the Identity service of the flowspace API, with the workspace creation of the
Workspace service, and proofs about all of its runs. `dafny verify dfyconfig.toml` checks every file.

## What is modelled

The Identity service keeps its state in PostgreSQL tables. Half of each state machine is in the `WHERE`
clauses of the SQL, the other half in the services that order the statements and look at the numbers of
changed rows. The model has both halves, twice:

- as functions on the tables (`Schema`, `Statements`, `Transactions`), over which the theorems are proved;
- as classes that change their fields in place (`Database.Store`, `AccountTransaction.Transaction`,
  `EmailWorker.Worker` and `Relay`, `NoticeDelivery.NoticeWorker`, `Limiter.Repository`,
  `LimitService.Service`, `ProviderAttempts.Repository`, `WorkspaceCreation.Store`) and methods that run the
  statements in the source's order, with early returns and rollbacks. Each method is proved to give exactly
  the reply and the tables of its function, so the theorems are about what these methods do. The methods of
  `Database.Store` that only assign one row have no line in the table below.

`System` puts the account transactions, the outbox relay, the broker's partitions, the email worker, the
purge, crashes and the clock into one transition system. A run is any sequence of its enabled actions. An
account transaction is one action at its row locks; everything that the services do outside a transaction
is a separate action or an arbitrary input: a password hash that was read earlier, a refresh session that
was found by an unlocked read, each send, each append, each COMMIT and each offset commit, with a crash
possible between any two.

| files | contents |
|---|---|
| `Options`, `Clock`, `Schema`, `Statements`, `ChallengeCheck`, `Reauthentication` | tables, rows, one function per SQL statement, code check, window |
| `Transactions`, `Consistency`, `TransactionProofs`, `Pacing` | the fifteen account transactions, what each keeps, how it is timed |
| `System`, `SystemInvariant`, `Runs` | actions, the invariant of every reachable state, what only moves forward |
| `Erasure` | a run without some of its actions, for any two machines |
| `DeliveryTheorems`, `PurgeTheorems`, `QueueTimes`, `OutboxTheorems` | nothing lost, nothing re-sent, purge invisible, leases and order |
| `Effects`, `Outcomes`, `Causes` | each request by column: the reply and every table after it, and which requests ended a session or retired an account |
| `AccountTheorems`, `SessionTheorems`, `ChallengeTheorems`, `ReauthenticationTheorems` | passwords, accounts, tokens, guesses, issue rate, proofs |
| `Database`, `AccountTransaction`, `AccountServices`, `EmailWorker` | the classes and the methods |
| `NoticeDelivery`, `ResetNotices` | the notice queue, and its notices together with the resets |
| `ProviderAttempts`, `AttemptHistory`, `ProviderServices` | attempts, their rows and successes by the history of their steps, and their claims together with the account tables |
| `Limiter`, `LimitService` | the counter table as a log of events, the limits of the service |
| `WorkspaceCreation` | idempotent creation under an advisory try-lock |
| `Framing`, `Base64`, `Tokens`, `PasswordHash` | HMAC messages, base64, token forms, the Argon2 string |

## Assumptions

- Random values are fresh: identifiers, refresh tokens, attempt secrets and row ids were never drawn
  before, and no two password hashes are equal (each has its own salt).
- SHA-256, HMAC and Argon2 results are opaque values that are only compared; the code verifier and the
  sealed material are free constructors, equal exactly when their inputs are. Unicode normalization and
  Argon2 are functions of an environment whose needed laws are stated in `PasswordHash.Lawful`.
- The database clock does not go back. A statement under an account's row lock has a timestamp between the
  last release of that lock and the present. The application clock is arbitrary.
- Row locks serialise the transactions of an account. `issued_at` is the time of the insert. Deferred
  triggers run in the order of their names: deadline check, proof stamp, and the check that the stamp queues.
- A failed send, append, COMMIT or offset commit may still have taken effect. A poll that reports an error
  carries no record.
- Statements on one provider attempt, one limit counter and one workspace lock have timestamps in the order
  in which they take effect.
- A Go string is its sequence of bytes, one `char` each.

## What the proofs found

- `ValidProviderSecret` is documented to accept only the canonical format, but Go's strict base64 decoder
  skips CR and LF, so a canonical value with newlines in it is accepted too. `Tokens.CanonicalIffNoNewline`
  gives the exact condition and `Tokens.NewlineIsAccepted` a value for every secret.
- `RequireCommitBefore` keeps the earliest deadline exactly while no caller passes the zero time after a
  set deadline; the zero time lifts them all (`AccountTransaction.DeadlineIsEarliest`, `ZeroLiftsDeadline`).
  No caller in the service passes it.
- The limiter reads only the rows of one day, so a window is enforced exactly when it is at most 24 hours,
  or admits nothing (`Limiter.BoundHoldsIffWindowFits`). Every limit of the service fits
  (`LimitService.WindowsFit`).
- A failed publish is released at the application's clock plus one second. A run in which the failing event
  is then first again while another waits exists if and only if that clock is a second or more behind the
  database's (`OutboxTheorems.SlowClockStarves`). Failed notices use the database's clock and do not have
  this condition.
- A provider identity whose account was retired by an account claim can never log in again, because its
  link stays (`AccountTheorems.RetiredLinkNeverLogsIn`).

## Model

| member | source | states |
|---|---|---|
| DeliveryTheorems.NothingIsStuck | services/identity/internal/adapter/in/event/email_worker.go:166-201 | in every reachable state of every run, a code that is still to be sent has an unpublished event, or a broker record at or after the committed offset that no consumer has finished |
| DeliveryTheorems.MaterialGoesBySending | services/identity/internal/adapter/out/postgres/delivery_repository.go:22-74 | between any two states of a run, material of a challenge that may still be sent disappears only when a delivery that sent it commits |
| DeliveryTheorems.StepKeepsMaterial | services/identity/internal/adapter/out/postgres/delivery_repository.go:44-73 | one step removes material only by finishing the delivery that sent it, or when the challenge is terminal afterwards |
| DeliveryTheorems.NoSendAfterCommit | services/identity/internal/adapter/in/event/email_worker.go:166-201 | after the delivery of a challenge commits, no duplicate record, redelivery or rewind ever sends it again |
| DeliveryTheorems.DeliveryPinsRows | services/identity/internal/adapter/out/postgres/delivery_repository.go:33-72 | while a delivery transaction is open its account, challenge and material stay as they were read, unused and unexpired at its start, so its delete always finds the material (the ErrDeliveryMaterialGone branch is unreachable) |
| DeliveryTheorems.BeginOutcome | services/identity/internal/adapter/out/postgres/delivery_repository.go:33-62 | a delivery begins to send exactly when the code of its record may be sent and has its material, and drops the material of exactly those that may not be sent |
| DeliveryTheorems.RecordsMatch | services/identity/internal/adapter/out/postgres/delivery_repository.go:44-46 | a record always names an existing challenge with the same purpose, so the purpose-mismatch branch is unreachable |
| DeliveryTheorems.MailedCodeIsAccepted | services/identity/internal/adapter/in/event/email_worker.go:88-101 | every email ever sent went to the account's own address and carries the one code that its challenge accepts while open |
| EmailWorker.StepIsAction | services/identity/internal/adapter/out/postgres/delivery_repository.go:22-74 | at the same row locks the step-by-step worker and the transition system take the same branch and send the same email, and the material always opens |
| EmailWorker.SendingPassIsRun | services/identity/internal/adapter/in/event/email_worker.go:166-201 | a pass that sends is a run of the system: it leaves the one email, no material and the offset after the record |
| EmailWorker.SkippingPassIsRun | services/identity/internal/adapter/in/event/email_worker.go:166-201 | a pass whose record needs no sending is a run of the system that sends nothing and moves the offset on |
| EmailWorker.FailingPassIsRun | services/identity/internal/adapter/in/event/email_worker.go:178-186 | a pass whose send fails is a run of the system that leaves the tables and the offset and polls the record again |
| EmailWorker.RelayPassIsRun | services/identity/internal/adapter/out/event/outbox_relay.go:36-61 | a pass of the relay is a run of the system: claim, append, and mark or release |
| EmailWorker.Worker.Send | services/identity/internal/adapter/in/event/email_worker.go:93-99 | a refused send leaves no mail; a send whose answer is lost has left one |
| EmailWorker.Worker.WithCurrentDelivery | services/identity/internal/adapter/out/postgres/delivery_repository.go:22-74 | skip, drop or send under the locks, delete the material and commit; a failed send changes no table, and a COMMIT whose answer is lost has still landed |
| EmailWorker.Worker.ProcessRecord | services/identity/internal/adapter/in/event/email_worker.go:166-201 | a failed delivery rewinds to its record and commits no offset; otherwise the offset is committed, and a failed offset commit is reported |
| EmailWorker.Worker.RunOnce | services/identity/internal/adapter/in/event/email_worker.go:150-164 | the position passes a record only once no later delivery of it can send anything; a pass sends at most the one email of its record |
| EmailWorker.Worker.Run | services/identity/internal/adapter/in/event/email_worker.go:203-225 | through any sequence of passes and purges, every record that the consumer got past has nothing left to send, and the committed offset never passes the position |
| EmailWorker.DoneStays | services/identity/internal/adapter/out/postgres/delivery_repository.go:66-73 | a record with nothing to send stays so while material is only deleted |
| NoticeDelivery.NoticeWorker.WithNextPasswordChangeNotice | services/identity/internal/adapter/out/postgres/delivery_repository.go:86-112 | the next due notice that no other worker holds is sent to its address and deleted, or deferred by 30 seconds; a failed COMMIT changes nothing |
| NoticeDelivery.NoNoticeIsLost | services/identity/internal/adapter/out/postgres/delivery_repository.go:86-112 | in every run a queued notice is still in the table or was emailed, always to the queued address |
| NoticeDelivery.CommitOutcome | services/identity/internal/adapter/out/postgres/sqlc/outbox.sql.go:75-93 | a failed notice counts the failure and waits exactly 30 seconds, a delivered one is gone, and no other notice changes |
| NoticeDelivery.NoticesComeDue | services/identity/internal/adapter/out/postgres/sqlc/outbox.sql.go:104-112 | in every run every unlocked notice is due within 30 seconds, and then a worker finds one |
| NoticeDelivery.OneWorkerPerNotice | services/identity/internal/adapter/out/postgres/sqlc/outbox.sql.go:104-112 | at most one worker holds a notice, and the notice stays in the table meanwhile |
| NoticeDelivery.NoNoticeAfterDelivery | services/identity/internal/adapter/out/postgres/delivery_repository.go:104-111 | after a delivery commits, no step sends the notice again |
| NoticeDelivery.ExtraMailsCostFailures | services/identity/internal/adapter/out/postgres/delivery_repository.go:98-111 | in every run every email of a notice beyond the first costs an attempt that failed or crashed |
| NoticeDelivery.FailingNoticeGoesBehind | services/identity/internal/adapter/out/postgres/sqlc/outbox.sql.go:75-81 | a deferred notice is not picked while a notice waits that was due when it was deferred |
| ResetNotices.ResetIsNoticed | services/identity/internal/app/password_reset_service.go:137-151 | in every joint run, once a reset has committed its notice is in the queue or was emailed, and only to the address of the account |
| ResetNotices.NoticesTellOfResets | services/identity/internal/adapter/out/postgres/delivery_repository.go:86-112 | every notice email tells an account's own address of a reset of that account that committed before |
| PurgeTheorems.TerminalIsNotCurrent | services/identity/internal/adapter/out/postgres/sqlc/delivery.sql.go:145-165 | the condition of the purge is exactly the negation of isCurrentDelivery |
| DeliveryTheorems.PurgeOutcome | services/identity/internal/adapter/out/postgres/sqlc/delivery.sql.go:145-165 | the purge deletes the material of exactly the codes that may not be sent, of accounts that are not locked |
| SystemInvariant.TerminalIsStable | services/identity/internal/adapter/out/postgres/delivery_repository.go:76-84 | a terminal challenge stays terminal under every later change of its rows and as time passes |
| PurgeTheorems.RunIgnoresMaterial | services/identity/internal/adapter/out/postgres/sqlc/delivery.sql.go:14-49 | leftover material changes no reply and no other table of any account transaction |
| PurgeTheorems.PurgeIsInvisible | services/identity/internal/adapter/out/postgres/sqlc/delivery.sql.go:145-165 | erasing every purge from a run leaves a run of the remaining actions with the same emails, broker and tables, but for material that no delivery would send |
| OutboxTheorems.PublishedWasAppended | services/identity/internal/adapter/out/event/outbox_relay.go:36-61 | an event marked published was appended to the broker, and the mark is never taken back |
| OutboxTheorems.LeaseExpires | services/identity/internal/adapter/out/postgres/sqlc/outbox.sql.go:14-33 | whatever its owner does, an unpublished event is due again within 30 seconds or at its next attempt time |
| OutboxTheorems.ClaimLasts | services/identity/internal/adapter/out/postgres/sqlc/outbox.sql.go:14-33 | a claim of a due event is held for exactly 30 seconds, and from then on the event is due again |
| OutboxTheorems.ClaimThenMark | services/identity/internal/adapter/out/postgres/sqlc/outbox.sql.go:127-134 | an event is published exactly when its mark comes within 30 seconds of its claim |
| OutboxTheorems.ClaimThenRelease | services/identity/internal/adapter/out/postgres/sqlc/outbox.sql.go:166-176 | a release within 30 seconds of the claim counts the failure and sets the next attempt; a later one changes nothing |
| OutboxTheorems.ClaimExcludesOthers | services/identity/internal/adapter/out/postgres/outbox_repository.go:25-72 | while one owner's claim lives, no other owner can claim, mark or release the event |
| OutboxTheorems.NextIsAhead | services/identity/internal/adapter/out/postgres/sqlc/outbox.sql.go:20-24 | while an event is due, the relay claims it or one that is ahead of it |
| OutboxTheorems.PublishingMovesOn | services/identity/internal/adapter/out/postgres/sqlc/outbox.sql.go:127-134 | publishing an event leaves exactly one event fewer ahead of each waiting one |
| OutboxTheorems.FailingEventGoesBehind | services/identity/internal/adapter/out/event/outbox_relay.go:51-55 | a failed event that is released moves behind every event whose time has come, claimed or not, if the application clock is less than a second behind the database |
| QueueTimes.TransactionQueuedAt | services/identity/internal/adapter/out/postgres/sqlc/outbox.sql.go:56-60 | every transaction queues only events that are due from the time of its own insert |
| OutboxTheorems.SlowClockStarves | services/identity/internal/adapter/out/event/outbox_relay.go:51-55 | there is a run that ends with a failed publish and its release after which the failing event is next again while another waits, if and only if the application clock is a second or more behind |
| OutboxTheorems.WaitingIsBounded | services/identity/internal/adapter/out/postgres/sqlc/outbox.sql.go:14-33 | in every run, while an event waits, codes are queued later and no release happens with a clock a second or more behind, the relays are done with at most as many events before it as were ahead of it |
| EmailWorker.Relay.RunOnce | services/identity/internal/adapter/out/event/outbox_relay.go:36-61 | claims the first due event, appends it, and marks or releases it; success is reported exactly when the lease still lived |
| Database.Store.ClaimOutboxEvent | services/identity/internal/adapter/out/postgres/sqlc/outbox.sql.go:14-33 | claims the due event that is first by next attempt and creation time, for 30 seconds; nothing when none is due |
| Database.Store.MarkOutboxPublished | services/identity/internal/adapter/out/postgres/sqlc/outbox.sql.go:127-134 | publishes only under a live claim of the owner and reports whether it did |
| Database.Store.ReleaseOutboxClaim | services/identity/internal/adapter/out/postgres/sqlc/outbox.sql.go:166-176 | releases only under a live claim of the owner and reports whether it did |
| TransactionProofs.TransactionKeeps | services/identity/internal/adapter/out/postgres/account_repository.go:43-70 | every account transaction keeps all table invariants, changes only rows of accounts that it locks, never moves a row backwards, and drops material only of closed challenges |
| Pacing.TransactionIsPaced | services/identity/internal/adapter/out/postgres/sqlc/challenges.sql.go:14-20 | every transaction adds at most one challenge, checked before its insert or the first of its account, and draws only fresh hashes |
| SystemInvariant.StepKeeps | services/identity/internal/adapter/in/event/email_worker.go:150-201 | the invariant of the whole system is kept by every step of transactions, relay, broker, worker, purge, clock and crashes |
| SystemInvariant.RunKeeps | services/identity/internal/adapter/in/event/email_worker.go:150-201 | every state of every run satisfies the invariant |
| Runs.RunAdvances | services/identity/internal/adapter/out/postgres/account_repository.go:43-70 | any later state advances any earlier one: rows, tokens, links and events only move forward |
| AccountTheorems.NoStaleLogin | services/identity/internal/app/password_login_service.go:83-98 | a login whose password matched a hash that the account had before a reset is refused, without effect, once the reset has committed, in every interleaving |
| AccountTheorems.ResetSignsOut | services/identity/internal/app/password_reset_service.go:137-151 | every session that the account had when a reset committed is revoked in every later state |
| AccountTheorems.ResetCommits | services/identity/internal/app/password_reset_service.go:137-151 | an accepted reset changes the hash, revokes all sessions, leaves no current reset code and queues the notice to the account's address |
| AccountTheorems.OneAccountPerEmail | services/identity/db/migrations/00001_create_identity.sql:13-15 | in every reachable state at most one account that is not retired has an email |
| AccountTheorems.VerifiedForGood | services/identity/internal/adapter/out/postgres/sqlc/identity.sql.go:214-220 | a verified account stays verified with the same time and is never retired |
| AccountTheorems.RetiredIsFrozen | services/identity/internal/adapter/out/postgres/account_repository.go:453-465 | a retired account has only revoked sessions, no current challenge and no material, and no later step changes its row, sessions or challenges, or adds one |
| AccountTheorems.RetiredLinkNeverLogsIn | services/identity/internal/adapter/out/postgres/sqlc/provider_login.sql.go:155-158 | a provider identity linked to a retired account is refused for good, since its link stays |
| Outcomes.SignUpOutcome | services/identity/internal/app/signup_service.go:68-83 | refused without effect exactly when somebody owns the email; otherwise exactly the unverified account, its session and its code with material and event are added |
| Outcomes.LoginOutcome | services/identity/internal/app/password_login_service.go:83-111 | accepted exactly when the account is not retired and still has the compared hash; then exactly one session is added, idle for 30 and in all for 90 days |
| Outcomes.VerifyOutcome | services/identity/internal/app/email_verification_service.go:60-106 | the reply and every table for every request: a verified caller is accepted without spending a code, the right code open by both clocks verifies and is consumed, a wrong one costs a guess |
| Outcomes.ClaimOutcome | services/identity/internal/app/account_claim_service.go:85-147 | the reply and every table: exactly the right claim code of the unverified owner of the email retires that account with its sessions, codes and material, and adds the new verified account with a session; a wrong code costs a guess |
| Outcomes.ResetOutcome | services/identity/internal/app/password_reset_service.go:86-135 | the reply and every table: exactly the right reset code of the verified owner with a password changes the hash, ends the sessions of that account only, drops its reset material and queues the notice; a wrong code costs a guess |
| Outcomes.VerificationRequestOutcome | services/identity/internal/app/email_verification_code_service.go:50-71 | each of the four replies exactly by session, verification and the rate of five an hour and one a minute; an accepted request issues the code and changes nothing else |
| Outcomes.EmailRequestOutcome | services/identity/internal/app/password_reset_code_service.go:64-98 | always accepted; issues a code exactly when the owner of the email is eligible and one more code keeps the rate, and changes nothing otherwise |
| Outcomes.ReauthenticationRequestOutcome | services/identity/internal/app/code_reauthentication_service.go:37-68 | each reply exactly by the session at both clocks, verification, a code within the last minute, the rate and the COMMIT before the session ends; issues a code in exactly one of them |
| Outcomes.IssueQueues | services/identity/internal/app/code_reauthentication_service.go:70-90 | issuing makes the new code the only current one of its purpose, deliverable for ten minutes, and drops the material of the replaced reset and re-authentication codes |
| Outcomes.SubmissionEffect | services/identity/internal/domain/challenge.go:66-95 | a submission consumes the challenge exactly with the right code, costs a guess exactly with a wrong one, and otherwise changes nothing |
| Effects.IssueIssues | services/identity/internal/app/claim_code_service.go:63-94 | issuing replaces exactly the current codes of the account and purpose and adds exactly the code, its material and its event |
| Effects.RevocationSignsOut | services/identity/internal/adapter/out/postgres/sqlc/sessions.sql.go:223-228 | ends the live sessions of the account and changes no other session and no other table |
| Effects.RevocationEndsOne | services/identity/internal/adapter/out/postgres/sqlc/sessions.sql.go:264-267 | ends one session and changes no other row |
| Effects.ReplacementSupersedes | services/identity/internal/adapter/out/postgres/sqlc/challenges.sql.go:159-166 | replaces exactly the current challenges of the account and purpose |
| Effects.RevocationSupersedes | services/identity/internal/adapter/out/postgres/sqlc/challenges.sql.go:181-187 | replaces exactly the current challenges of the account |
| Effects.DeletionDropsReplaced | services/identity/internal/adapter/out/postgres/sqlc/delivery.sql.go:42-49 | drops exactly the material of replaced challenges of the account and purpose |
| Effects.CurrentIsSendable | services/identity/internal/adapter/out/postgres/delivery_repository.go:76-84 | a code is current, and not terminal, exactly when its account has the address, is not retired and is verified as the purpose needs, and the challenge is unused, has a guess left and has not expired |
| Causes.TransactionRows | services/identity/internal/adapter/out/postgres/account_repository.go:43-70 | after every transaction each session is exactly as it was, ended, refreshed or proven, and each account as it was, verified, retired or with a new password, by the named requests alone |
| Causes.SessionChangesAreLocked | services/identity/internal/adapter/out/postgres/account_repository.go:43-70 | a session changes only under the lock of its account or by its own logout |
| Causes.SessionsEndByRequest | services/identity/internal/adapter/out/postgres/sqlc/sessions.sql.go:223-228 | in every run a session has ended if and only if a logout, reset, claim or replay of it or of its account ended it |
| Causes.AccountsRetireByClaim | services/identity/internal/adapter/out/postgres/account_repository.go:453-465 | in every run an account is retired if and only if a claim of its email was accepted |
| Outcomes.ProviderLoginOutcome | services/identity/internal/app/provider_login_service.go:213-265 | each reply exactly: a linked identity only adds a session, an unusable or owned email and a link of a retired account are refused without effect |
| Outcomes.NewProviderAccountOutcome | services/identity/internal/app/provider_login_service.go:243-265 | a new identity adds exactly an account without a password, its link, a session and, unless the provider proved the email, a code |
| Outcomes.LogoutOutcome | services/identity/internal/adapter/out/postgres/account_repository.go:575-583 | accepted exactly for a signed-in caller; ends that session, or the live sessions of that account, and changes no other session and no other table |
| Outcomes.ReauthenticationOpensWindow | services/identity/internal/app/password_reauthentication_service.go:37-64 | accepted exactly when the session is alive under its locks and the COMMIT checks come before both of its expiries; an open window keeps its proof, a closed one gets the time of COMMIT, nothing else changes |
| Outcomes.CodeReauthenticationOutcome | services/identity/internal/app/code_reauthentication_service.go:92-131 | the same with the right code that expires after COMMIT, which is consumed; a late COMMIT is the fault of what expires first and spends nothing; a wrong code costs a guess |
| ProviderServices.CreateProviderSession | services/identity/internal/app/provider_login_service.go:179-265 | the claim of the attempt and the account transaction commit or roll back together; a refused account keeps the attempt claimed; a handoff that claims nothing only counts a failure |
| ProviderServices.CompleteProviderReauthentication | services/identity/internal/app/provider_reauthentication_service.go:54-109 | accepted only with an attempt bound to the locked subject and session whose identity is linked to the subject; an unlinked result stays claimed and opens nothing; a refused COMMIT gives the claim back |
| ProviderServices.LoginsHaveAttempts | services/identity/internal/app/provider_login_service.go:179-239 | in every joint run the session of an accepted provider login has a claimed attempt that was created for login, and the identity that its callback brought is linked to the session's account |
| ProviderServices.ProofsHaveAttempts | services/identity/internal/app/provider_reauthentication_service.go:87-109 | in every joint run a provider re-authentication took an attempt that was created for its session and subject, and the identity that its callback brought is linked to the subject |
| ProviderServices.LoginsAreInjective | services/identity/internal/app/provider_login_service.go:179-239 | different provider logins open different sessions and take different attempts and tokens |
| ProviderServices.RefusedLoginStaysClaimed | services/identity/internal/app/provider_login_service.go:209-239 | after a login that is refused as unavailable no later claim takes its attempt |
| AccountServices.QueueCode | services/identity/internal/app/email_verification_code_service.go:73-92 | challenge, sealed material and event are stored in this order |
| AccountServices.IssueCode | services/identity/internal/app/claim_code_service.go:63-94 | replaces the current code, then queues the new one |
| AccountServices.SubmitCode | services/identity/internal/app/account_claim_service.go:93-123 | compares once, then counts the wrong guess or consumes the challenge |
| AccountServices.SignUp | services/identity/internal/app/signup_service.go:68-83 | for every input gives the reply and tables of RunSignUp: a taken email leaves nothing behind, otherwise account, session, challenge, material and event |
| AccountServices.RequestVerificationCode | services/identity/internal/app/email_verification_code_service.go:50-71 | equals RunRequestVerificationCode for every input: the four refusals in the source's order, or one issued code |
| AccountServices.RequestClaimCode | services/identity/internal/app/claim_code_service.go:63-94 | equals RunRequestClaimCode: every refusal is silent |
| AccountServices.RequestResetCode | services/identity/internal/app/password_reset_code_service.go:64-98 | equals RunRequestResetCode: every refusal is silent |
| AccountServices.RequestReauthenticationCode | services/identity/internal/app/code_reauthentication_service.go:37-90 | equals RunRequestReauthenticationCode, the refusal at COMMIT included |
| AccountServices.VerifyEmail | services/identity/internal/app/email_verification_service.go:60-106 | equals RunVerifyEmail: a verified account is accepted without spending a code, a wrong guess commits, and under the account lock the guarded update after a right code always changes the row |
| AccountServices.RetireAndRevoke | services/identity/internal/adapter/out/postgres/account_repository.go:453-465 | sessions, challenges and material go before the account retires; reports whether it was unverified |
| AccountServices.ReplaceAccount | services/identity/internal/app/account_claim_service.go:125-147 | under the account lock no step of the replacement can fail |
| AccountServices.ClaimAccount | services/identity/internal/app/account_claim_service.go:85-147 | equals RunClaimAccount: a wrong guess commits, a right code replaces the account |
| AccountServices.ApplyPasswordReset | services/identity/internal/app/password_reset_service.go:137-151 | applies the five statements of a reset exactly when the account is verified and not retired |
| AccountServices.ResetPassword | services/identity/internal/app/password_reset_service.go:86-135 | equals RunResetPassword: a wrong guess commits, a right code resets |
| AccountServices.ReauthenticateWithProof | services/identity/internal/app/password_reauthentication_service.go:37-64 | equals RunReauthenticateWithProof: window, deadline, stamp and COMMIT through the transaction object |
| AccountServices.ReauthenticateWithPassword | services/identity/internal/app/password_reauthentication_service.go:37-86 | accepted only while the stored hash, read under the account lock, matches; an accepted one is the window transaction, any other changes no table |
| AccountServices.ReauthenticateWithCode | services/identity/internal/app/code_reauthentication_service.go:92-131 | equals RunReauthenticateWithCode: a wrong guess commits, and a refused COMMIT is blamed on the code or on the session |
| AccountServices.IssueLogin | services/identity/internal/app/password_login_service.go:83-111 | equals RunIssueLogin: the hash is compared again under the account lock |
| AccountServices.ProviderLogin | services/identity/internal/app/provider_login_service.go:213-265 | equals RunProviderLogin: a second link of an identity rolls the new account back |
| AccountServices.Rotate | services/identity/internal/adapter/out/postgres/session_refresh_repository.go:25-77 | equals RunRotate: a replay revokes and commits, a lost rotation and a failed signature roll back |
| AccountServices.LogoutCurrent | services/identity/internal/adapter/out/postgres/session_repository.go:50-63 | equals RunLogoutCurrent |
| AccountServices.LogoutAll | services/identity/internal/adapter/out/postgres/account_repository.go:575-583 | equals RunLogoutAll |
| Database.Store.CreateAccount | services/identity/internal/adapter/out/postgres/sqlc/identity.sql.go:14-18 | inserts exactly when no active row has the email |
| Database.Store.GetActiveAccountByEmail | services/identity/internal/adapter/out/postgres/sqlc/identity.sql.go:78-85 | finds the only active account of the email |
| Database.Store.MarkEmailVerified | services/identity/internal/adapter/out/postgres/sqlc/identity.sql.go:214-220 | changes only an unverified row that is not retired |
| Database.Store.RetireUnverifiedAccount | services/identity/internal/adapter/out/postgres/sqlc/identity.sql.go:230-236 | changes only an unverified row that is not retired |
| Database.Store.UpdatePasswordHash | services/identity/internal/adapter/out/postgres/sqlc/identity.sql.go:246-252 | changes only a verified row that is not retired |
| Database.Store.FindRefreshSession | services/identity/internal/adapter/out/postgres/sqlc/sessions.sql.go:45-50 | finds the session by its current or a rotated token |
| Database.Store.RevokeAccountSessions | services/identity/internal/adapter/out/postgres/sqlc/sessions.sql.go:223-228 | revokes every session of the account that is not revoked yet |
| Database.Store.RevokeRefreshSession | services/identity/internal/adapter/out/postgres/sqlc/sessions.sql.go:264-267 | revokes once |
| Database.Store.RevokeCurrentSession | services/identity/internal/adapter/out/postgres/sqlc/sessions.sql.go:238-249 | revokes exactly an active session of the caller |
| Database.Store.RotateCurrentRefreshToken | services/identity/internal/adapter/out/postgres/sqlc/sessions.sql.go:274-284 | overwrites the token of a live session and extends its idle expiry up to the absolute one |
| Database.Store.GetCurrentChallenge | services/identity/internal/adapter/out/postgres/sqlc/challenges.sql.go:84-93 | finds the only current challenge of the purpose |
| Database.Store.ReplaceCurrentChallenge | services/identity/internal/adapter/out/postgres/sqlc/challenges.sql.go:159-166 | replaces only current challenges of the purpose |
| Database.Store.RevokeAccountChallenges | services/identity/internal/adapter/out/postgres/sqlc/challenges.sql.go:181-187 | replaces every current challenge of the account |
| Database.Store.ConsumeCurrentChallenge | services/identity/internal/adapter/out/postgres/sqlc/challenges.sql.go:29-37 | consumes exactly a challenge that the database clock finds open |
| Database.Store.IncrementChallengeWrongGuess | services/identity/internal/adapter/out/postgres/sqlc/challenges.sql.go:141-150 | counts exactly on a challenge that the database clock finds open |
| Database.Store.DeleteChallengeDelivery | services/identity/internal/adapter/out/postgres/sqlc/delivery.sql.go:29-32 | deletes the material and reports whether there was any |
| Database.Store.DeleteReplacedChallengeDeliveries | services/identity/internal/adapter/out/postgres/sqlc/delivery.sql.go:42-49 | deletes only material of replaced challenges of the purpose |
| Database.Store.DeleteAccountChallengeDeliveries | services/identity/internal/adapter/out/postgres/sqlc/delivery.sql.go:14-19 | deletes all material of the account |
| Database.Store.PurgeTerminal | services/identity/internal/adapter/out/postgres/sqlc/delivery.sql.go:145-165 | deletes the material of terminal challenges whose account is not locked |
| Database.Store.QueuePasswordChangeNotice | services/identity/internal/adapter/out/postgres/sqlc/outbox.sql.go:149-157 | queues to the address of a verified account that is not retired |
| Database.Store.CreateProviderLink | services/identity/internal/adapter/out/postgres/sqlc/provider_login.sql.go:155-158 | the primary key refuses a second link of an identity |
| ReauthenticationTheorems.GuardedCommitHasProof | services/identity/internal/app/reauthentication_guard.go:11-30 | every commit that the guard admitted at time t has a proof of the same session, its creation or a committed re-authentication, at some p with p <= t < p + 10 minutes, and t before both expiries |
| ReauthenticationTheorems.ProofsComeFromTheRun | services/identity/db/migrations/00011_set_reauthentication_time_at_commit.sql:4-18 | in every run a session's proof time is its creation, or the COMMIT of a re-authentication of that session in a closed window |
| ReauthenticationTheorems.ProofMoves | services/identity/internal/app/reauthentication_window.go:18-31 | a transaction moves the proof of a session only by re-authenticating it; a proof in an open window never moves |
| ReauthenticationTheorems.WindowBounds | services/identity/internal/domain/reauthentication.go:11-27 | a window is open exactly from its proof for ten minutes, cut at both expiries |
| AccountTransaction.GuardedCommitIsTimely | services/identity/internal/app/reauthentication_guard.go:11-30 | an admitted commit checks its deadline inside the window whatever other deadlines are required |
| AccountTransaction.GuardedCommits | services/identity/internal/app/reauthentication_guard.go:11-30 | a transaction that only the guard limits commits exactly when its check runs within ten minutes of the proof and before both expiries |
| AccountTransaction.DeadlineIsEarliest | services/identity/internal/adapter/out/postgres/account_repository.go:145-149 | over any sequence of calls the deadline is always the earliest set one if and only if no call passes the zero time after a set one |
| AccountTransaction.LowerKeepsEarliest | services/identity/internal/adapter/out/postgres/account_repository.go:145-149 | one call keeps the earliest deadline exactly unless it passes the zero time over a set one |
| AccountTransaction.ZeroLiftsDeadline | services/identity/internal/adapter/out/postgres/account_repository.go:145-149 | the zero time lifts every deadline required before it, so every COMMIT is allowed |
| AccountTransaction.SetDeadlinesOnlyFall | services/identity/internal/adapter/out/postgres/account_repository.go:145-149 | set deadlines never raise the deadline |
| AccountTransaction.Transaction.constructor | services/identity/internal/adapter/out/postgres/account_repository.go:49 | a transaction starts without session, subject, deadline or requested proof |
| AccountTransaction.Transaction.LockSessionForReauthentication | services/identity/internal/adapter/out/postgres/account_repository.go:96-115 | binds the session and the subject exactly when both are active at both clocks |
| AccountTransaction.Transaction.ReauthenticateSession | services/identity/internal/adapter/out/postgres/account_repository.go:137-143 | accepts only the session and the subject that were locked |
| AccountTransaction.Transaction.RequireCommitBefore | services/identity/internal/adapter/out/postgres/account_repository.go:145-149 | lowers the deadline |
| AccountTransaction.Transaction.OpenWindow | services/identity/internal/app/reauthentication_window.go:18-31 | requests a proof exactly for a closed window and requires COMMIT before the session ends |
| AccountTransaction.Transaction.Commit | services/identity/internal/adapter/out/postgres/account_repository.go:53-69 | refuses at or after the deadline and rolls back; stamps the requested session otherwise |
| AccountTransaction.RequireReauthentication | services/identity/internal/app/reauthentication_guard.go:11-30 | admits exactly an open window and then requires COMMIT before it closes |
| SessionTheorems.TokensStay | services/identity/internal/adapter/out/postgres/sqlc/sessions.sql.go:45-50 | in every run every hash ever issued for a session is its current one or in the rotated set, and keeps finding that session only |
| SessionTheorems.RefreshesOnce | services/identity/internal/adapter/out/postgres/session_refresh_repository.go:25-77 | in every run each refresh token refreshes successfully at most once |
| SessionTheorems.RotationOutcome | services/identity/internal/adapter/out/postgres/session_refresh_repository.go:42-77 | the reply and every table of a refresh: a rotated token ends exactly that session; the current one of a live session, signed in time, is spent and changes only the token and the idle expiry; anything else changes nothing |
| SessionTheorems.RefreshContinues | services/identity/internal/adapter/out/postgres/sqlc/sessions.sql.go:274-284 | after an accepted refresh the session stays signed in for 30 days or to its end, and a refresh with the new token is accepted until then |
| SessionTheorems.ReplayRevokesForGood | services/identity/internal/adapter/out/postgres/session_refresh_repository.go:52-57 | presenting a rotated token on a live session revokes it, in every later state |
| SessionTheorems.LifetimesHold | services/identity/internal/adapter/out/postgres/sqlc/sessions.sql.go:274-284 | over any chain of refreshes the absolute expiry stays 90 days after creation, and the idle expiry never falls and never passes it |
| SessionTheorems.AccessExpiry | services/identity/internal/app/session_refresh_service.go:46-50 | the last whole second within ten minutes and within the session |
| SessionTheorems.AccessEndsFirst | services/identity/internal/app/session_service.go:48-52 | every issued access token, of a new session or a refresh, expires no later than the idle and the absolute expiry |
| SessionTheorems.FoundIsTheSession | services/identity/internal/adapter/out/postgres/sqlc/sessions.sql.go:45-50 | the lookup finds exactly the session that the token belongs or belonged to |
| ChallengeTheorems.GuessesAreCounted | services/identity/internal/adapter/out/postgres/sqlc/challenges.sql.go:141-150 | in every run the stored counter is exactly the number of wrong codes compared while both clocks found the challenge open, and at most five |
| ChallengeTheorems.SubmissionOutcome | services/identity/internal/domain/challenge.go:66-95 | the stored code consumes the current challenge exactly when both clocks find it open; any other well-formed code then costs one guess; otherwise nothing changes |
| ChallengeTheorems.ConsumedOnce | services/identity/internal/adapter/out/postgres/sqlc/challenges.sql.go:29-37 | a challenge is consumed at most once, and never after it was replaced |
| ChallengeTheorems.OneCurrentCode | services/identity/db/migrations/00001_create_identity.sql:44-46 | in every reachable state an account has at most one current challenge of a purpose |
| ChallengeTheorems.GuessesAreBounded | services/identity/db/migrations/00001_create_identity.sql:35-41 | guesses stay between 0 and 5 and no challenge is both replaced and consumed |
| ChallengeTheorems.IssueRate | services/identity/internal/adapter/out/postgres/sqlc/challenges.sql.go:14-20 | in every run, over all purposes and issue paths, an account gets at most five challenges in any half-open hour and no two within a minute |
| ChallengeTheorems.CheckIsTheRate | services/identity/internal/adapter/out/postgres/sqlc/challenges.sql.go:14-20 | the check admits a code if and only if one more challenge at that time leaves at most five in every half-open hour and none within 60 seconds of another |
| ChallengeTheorems.FixedTimeChangesNothing | services/identity/internal/domain/challenge.go:76-84 | comparing first gives the same result as checking first |
| Framing.CodesAreWellFormed | services/identity/internal/domain/challenge.go:23-29 | the drawn codes are exactly the well-formed ones, one for each number below a million |
| Limiter.AdmittedIffBounded | services/identity/internal/adapter/out/postgres/limit_repository.go:75-95 | an event is admitted exactly when the hourly, the daily and the spacing bound all stay satisfied |
| Limiter.EveryRunIsBounded | services/identity/internal/adapter/out/postgres/limit_repository.go:75-95 | in every run every half-open interval of the window's length holds at most the maximum, every day at most the daily maximum, and events are spaced |
| Limiter.BoundHoldsIffWindowFits | services/identity/internal/adapter/out/postgres/sqlc/limits.sql.go:14-27 | without daily maximum and spacing the bound holds in every run if and only if the window is at most 24 hours or nothing is admitted |
| Limiter.WideWindowBreaksBound | services/identity/internal/adapter/out/postgres/sqlc/limits.sql.go:14-27 | a run that breaks the bound of a wider window |
| Limiter.UpsertRepresents | services/identity/internal/adapter/out/postgres/sqlc/limits.sql.go:56-62 | counting in the table is appending to the log of admitted events |
| Limiter.WindowBoundStep | services/identity/internal/adapter/out/postgres/limit_repository.go:84-86 | the count of the last window decides exactly whether one more event keeps the bound in every interval |
| Limiter.Repository.RecordLimit | services/identity/internal/adapter/out/postgres/limit_repository.go:75-95 | admits and counts, or changes nothing |
| Limiter.Repository.Record | services/identity/internal/adapter/out/postgres/limit_repository.go:20-43 | admits exactly when the log stays within its bounds |
| Limiter.Repository.RecordLogin | services/identity/internal/adapter/out/postgres/limit_repository.go:45-73 | counts both keys or neither |
| LimitService.CountersAreSeparate | services/identity/internal/app/limit_service.go:21-92 | no two limits, and no two keys of a limit, share a counter |
| LimitService.AppendKeeps | services/identity/internal/app/limit_service.go:94-106 | counting an event that one limit admits keeps the bounds of every counter of every limit |
| LimitService.WindowsFit | services/identity/internal/app/limit_service.go:21-106 | every window that the service uses is within the day of rows that the usage query reads |
| LimitService.Service.Record | services/identity/internal/app/limit_service.go:94-106 | keeps every counter within the bounds of its limit; an event is admitted, and counted, exactly when its log stays within them |
| LimitService.Service.Signup | services/identity/internal/app/limit_service.go:21-23 | admitted exactly while every hour has at most 10 of the source |
| LimitService.Service.CodeRequest | services/identity/internal/app/limit_service.go:25-27 | admitted exactly while every hour has at most 60 of the source |
| LimitService.Service.ProviderLoginStart | services/identity/internal/app/limit_service.go:29-31 | admitted exactly while every hour has at most 60 of the source |
| LimitService.Service.ProviderCallback | services/identity/internal/app/limit_service.go:33-35 | admitted exactly while every hour has at most 120 of the source |
| LimitService.Service.ProviderSessionFailure | services/identity/internal/app/limit_service.go:38-40 | admitted exactly while every hour has at most 100 of the source |
| LimitService.Service.WrongCode | services/identity/internal/app/limit_service.go:63-65 | admitted exactly while every hour has at most 100 of the source |
| LimitService.Service.CodeIssue | services/identity/internal/app/limit_service.go:67-69 | admitted exactly while every hour has at most 5 of the account, a minute apart |
| LimitService.Service.AccountWrongCode | services/identity/internal/app/limit_service.go:71-73 | admitted exactly while every hour has at most 10 and every day at most 20 of the account |
| LimitService.Service.RecordRecovery | services/identity/internal/app/limit_service.go:42-61 | counts under the keyed digest of the normalized address, 60 requests or 10 guesses an hour and 20 a day; a bad key or address counts nothing |
| LimitService.Service.PasswordLogin | services/identity/internal/app/limit_service.go:75-92 | admitted exactly while every hour has at most 60 of the source and every quarter of an hour at most 10 of the email; then both are counted, else neither |
| ProviderAttempts.AttemptsAreConsistent | services/identity/db/migrations/00006_add_provider_login_results.sql:2-15 | in every run claimed implies recorded implies consumed, failed and recorded exclude each other, and failures stay at most five |
| ProviderAttempts.FifthFailureCloses | services/identity/internal/adapter/out/postgres/sqlc/provider_login.sql.go:290-298 | after the fifth failure no claim of the attempt ever succeeds |
| ProviderAttempts.ClaimsAreInjective | services/identity/internal/adapter/out/postgres/sqlc/provider_login.sql.go:14-24 | different committed claims claim different attempts |
| ProviderAttempts.TokensClaimOnce | services/identity/internal/adapter/out/postgres/sqlc/provider_login.sql.go:14-24 | an attempt token is claimed with at most once, also after its attempt was deleted |
| ProviderAttempts.ClaimsMatchBinding | services/identity/internal/adapter/out/postgres/provider_attempt.go:19-38 | a re-authentication claim succeeds only for the subject and session that the attempt was created for, a login claim only for a login attempt |
| ProviderAttempts.StateConsumedOnce | services/identity/internal/adapter/out/postgres/sqlc/provider_login.sql.go:90-98 | an attempt's state is consumed at most once |
| ProviderAttempts.PurgeIsInvisible | services/identity/internal/adapter/out/postgres/sqlc/provider_login.sql.go:213-216 | erasing the deletions of expired attempts from a run leaves a run with the same outcomes |
| AttemptHistory.AttemptsStart | services/identity/internal/adapter/out/postgres/provider_attempt.go:19-38 | in every run an attempt has the provider, secrets and use of its creation and expires ten minutes after it |
| AttemptHistory.ConsumedByCallback | services/identity/internal/adapter/out/postgres/sqlc/provider_login.sql.go:90-98 | in every run a state is consumed if and only if a callback consumed it |
| AttemptHistory.ResultsAreRecorded | services/identity/internal/adapter/out/postgres/sqlc/provider_login.sql.go:305-317 | in every run an attempt has a result if and only if a callback of it brought exactly that result |
| AttemptHistory.FailedByCallback | services/identity/internal/adapter/out/postgres/sqlc/provider_login.sql.go:226-233 | in every run an attempt failed if and only if its callback failed after consumption and before a result |
| AttemptHistory.ClaimedByClaim | services/identity/internal/adapter/out/postgres/sqlc/provider_login.sql.go:14-24 | in every run an attempt is claimed if and only if a committed claim took it |
| AttemptHistory.MissesAreCounted | services/identity/internal/adapter/out/postgres/sqlc/provider_login.sql.go:290-298 | in every run the failures of an attempt are the handoffs that missed it while it was open, up to five |
| AttemptHistory.ConsumeSucceeds | services/identity/internal/adapter/out/postgres/sqlc/provider_login.sql.go:90-98 | a callback consumes a state exactly when it is of the attempt's provider, within ten minutes, and the first |
| AttemptHistory.RecordSucceeds | services/identity/internal/adapter/out/postgres/sqlc/provider_login.sql.go:305-317 | a result is stored exactly for a consumed attempt within ten minutes whose callback did not fail, and once |
| AttemptHistory.ClaimSucceeds | services/identity/internal/adapter/out/postgres/sqlc/provider_login.sql.go:14-24 | a claim succeeds exactly within ten minutes of the creation for its token and use, with the handoff code of the stored result, unclaimed and missed by fewer than five handoffs |
| ProviderAttempts.Repository.CreateProviderAttempt | services/identity/internal/adapter/out/postgres/provider_attempt.go:19-38 | a bound session makes a re-authentication attempt, none a login attempt |
| ProviderAttempts.Repository.ConsumeProviderState | services/identity/internal/adapter/out/postgres/sqlc/provider_login.sql.go:90-98 | consumes an unexpired state of the provider once |
| ProviderAttempts.Repository.RecordProviderResult | services/identity/internal/adapter/out/postgres/sqlc/provider_login.sql.go:305-317 | stores a result only after consumption, before failure and expiry, and once |
| ProviderAttempts.Repository.FailProviderAttempt | services/identity/internal/adapter/out/postgres/sqlc/provider_login.sql.go:226-233 | fails only a consumed attempt without a result |
| ProviderAttempts.Repository.ClaimProviderResult | services/identity/internal/adapter/out/postgres/sqlc/provider_login.sql.go:14-24 | claims exactly an open login attempt by its token and handoff code |
| ProviderAttempts.Repository.ClaimProviderReauthenticationResult | services/identity/internal/adapter/out/postgres/sqlc/provider_login.sql.go:52-64 | claims exactly an open attempt bound to the subject and session |
| ProviderAttempts.Repository.RecordFailedProviderHandoff | services/identity/internal/adapter/out/postgres/sqlc/provider_login.sql.go:290-298 | counts on an open attempt only |
| ProviderAttempts.Repository.PurgeExpired | services/identity/internal/adapter/out/postgres/sqlc/provider_login.sql.go:213-216 | deletes exactly the expired attempts |
| ProviderAttempts.Repository.ClaimOrReject | services/identity/internal/app/provider_login_service.go:179-276 | a handoff that claims nothing counts against its attempt |
| WorkspaceCreation.CreationsAreADayApart | services/workspace/internal/adapter/out/postgres/workspace_repository.go:63-118 | in every run two creations for one subject and key are at least 24 hours apart, whatever the lock ids collide with |
| WorkspaceCreation.RepliesRepeat | services/workspace/internal/adapter/out/postgres/workspace_repository.go:79-91 | within a record's life every request with the name gets the created workspace, and another name conflicts without effect |
| WorkspaceCreation.CreatesUnlessLately | services/workspace/internal/adapter/out/postgres/workspace_repository.go:63-118 | a request that gets its lock creates a workspace if and only if no creation for its key completed in the last 24 hours |
| WorkspaceCreation.OwnerIsCreator | services/workspace/internal/adapter/out/postgres/sqlc/create_workspace.sql.go:33-36 | every workspace has exactly one owner, the subject whose request created it |
| WorkspaceCreation.LockOnlyDelays | services/workspace/internal/adapter/out/postgres/workspace_repository.go:52-69 | any run under colliding lock ids, without the requests that it answered "in progress", is a run under any finer lock ids, injective ones included, with the same tables and the same other replies |
| WorkspaceCreation.Store.CreateWorkspace | services/workspace/internal/adapter/out/postgres/workspace_repository.go:63-118 | refines the idempotent map: replay a live record, conflict, or insert workspace, owner and record |
| WorkspaceCreation.OnlyTheCreatorIsShown | services/workspace/internal/adapter/out/postgres/workspace_repository.go:120-136 | in every state after its creation GetWorkspace shows a workspace, with the requested name, to the subject that created it and to no other |
| WorkspaceCreation.ShownWasCreated | services/workspace/internal/adapter/out/postgres/workspace_repository.go:120-136 | whoever is shown a workspace created it earlier in the run |
| Framing.FrameRoundTrip | services/identity/internal/domain/challenge.go:126-134 | length-prefixed fields decode uniquely, whatever bytes they hold and however many they are |
| Framing.FrameIsInjective | services/identity/internal/domain/provider_login.go:94-102 | equal messages have equal lists of fields, of any length |
| Framing.MessagesAreSeparate | services/identity/internal/app/limit_service.go:50-61 | code, provider-secret and recovery-limit messages under one key never coincide |
| Framing.CodeMessageIsInjective | services/identity/internal/domain/challenge.go:126-134 | a code message determines subject, email, purpose and code |
| Framing.OtherMessagesAreInjective | services/identity/internal/domain/provider_login.go:94-102 | secret and limit messages determine their inputs |
| Framing.WriteFields | services/identity/internal/domain/challenge.go:128-130 | the loop writes the frame |
| Base64.RoundTrip | services/identity/internal/domain/password.go:43-44 | decoding gives back the encoded bytes, for both alphabets and modes |
| Base64.StrictIsCanonical | services/identity/internal/domain/provider_login.go:67-70 | strict decoding accepts exactly the canonical text, with newlines anywhere in it |
| Tokens.RefreshTokenIsCanonical | services/identity/internal/app/session_refresh_service.go:30-33 | a refresh token is accepted exactly in the form in which its secret was issued |
| Tokens.OneTokenPerSecret | services/identity/internal/app/session_refresh_service.go:34-39 | every secret has one token and every token one secret |
| Tokens.ValidUpToNewlines | services/identity/internal/domain/provider_login.go:65-70 | a provider secret is valid exactly when it is an issued form after its CR and LF are dropped |
| Tokens.CanonicalIffNoNewline | services/identity/internal/domain/provider_login.go:65-70 | a valid value has the documented canonical format if and only if it has no CR and no LF |
| Tokens.NewlineIsAccepted | services/identity/internal/domain/provider_login.go:65-70 | every issued secret followed by a line feed is accepted, though never issued |
| PasswordHash.ParsesWhatItPrints | services/identity/internal/domain/password.go:43-58 | every printed hash string parses to the same salt and digest |
| PasswordHash.ParsesExactly | services/identity/internal/domain/password.go:52-60 | a stored string parses exactly when it is of the one version and cost, with 16 bytes of salt and 32 of digest in base64 |
| PasswordHash.StorablePasswords | services/identity/internal/domain/password.go:83-106 | which passwords can be stored: 8 to 64 characters in normal form, not common, and below 15 a lower-case letter and a digit |
| PasswordHash.PresentablePasswords | services/identity/internal/domain/password.go:72-81 | which passwords are invalid at login whatever is stored, and that any other is unavailable exactly when the stored string does not parse |
| PasswordHash.AcceptedPasswordsVerify | services/identity/internal/domain/password.go:20-70 | every password that can be stored verifies against its stored string, in its own and in its normal form |
| PasswordHash.OthersCompareDigests | services/identity/internal/domain/password.go:47-70 | against a stored string another password is compared by its digest under the same salt only |
| PasswordHash.SplitJoins | services/identity/internal/domain/password.go:52 | splitting inverts joining of parts without the separator |
| PasswordHash.ScanPassword | services/identity/internal/domain/password.go:92-100 | the flag loop finds a lower-case letter and a digit |

## Left out

- HTTP, gRPC and Connect handlers, generated code, telemetry, trace context, configuration, TLS and
  process start and stop: no state behind them.
- The Google, GitHub, HIBP, SMTP, Kafka and schema-registry clients: their results are inputs that may be
  success, refusal, or failure after taking effect.
- Email normalization, the rules for a provider's email and the list of common passwords: their results
  are inputs, and the list is a predicate of the environment.
- Password policy beyond length, lower-case letter and digit; hash slots; response-time floors; the
  claim that a comparison takes fixed time.
- Calls of the limiter between the steps of a request: `LimitService` is a machine of its own, and a
  refused limit means that the transaction of the request does not run.
- Session listing, session revocation by id and the session check of the gateway: the first two are not
  implemented in the source, the third is the predicate `SessionActive` alone.
- Reading the window again after COMMIT to report its end: it changes no table.
- A failed signature of an access token at sign-up, login or claim: it rolls back like any failed
  statement and has no effect. For a refresh it is modelled.
- Errors of single statements other than the modelled constraint violations: they roll back.
- The 32-bit and 16-bit widths of attempt and guess counters: guesses stop at five, and an attempt counter
  would need two thousand million failures.
- Several relays in one claim statement: SKIP LOCKED makes each pick among the rows that others do not
  hold, and `System` lets a relay claim any due event.
- Records that are not from the relay, and so cannot be decoded: the worker fails on them and rewinds.
- The order of row locks between a reset and the notice workers: `ResetNotices.JointRun` lets both machines
  take one step at a time, with one clock.
- A lookup by email with FOR UPDATE that waited for a concurrent claim: under READ COMMITTED it may find no
  row and do nothing, where the model finds the new account. It is then as if the request had not been made.
- The order in which one transaction locks an attempt and an account: the two machines of
  `ProviderServices.JointRun` take their parts of a transaction in one step.
- That a waiting code is sent in the end: the proofs say that something is left that can send it, that
  leases end and that no other event overtakes for good, not that the processes run.
- The Keycloak verifier, connection-pool limits and deadlock detection.
