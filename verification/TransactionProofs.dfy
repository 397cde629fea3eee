/** Every account transaction keeps `Valid`, and follows the tables that it found under its row locks. */
module TransactionProofs {
  import opened Options
  import opened Clock
  import opened Schema
  import opened Statements
  import opened Consistency
  import opened Reauthentication
  import opened Transactions

  // No session outlives its last statement by more than the idle lifetime.
  ghost predicate IdleBounded(sessions: Sessions, settled: map<Subject, Time>) {
    forall id :: id in sessions ==>
      sessions[id].subject in settled && sessions[id].idleExpiresAt <= settled[sessions[id].subject] + IDLE_LIFETIME
  }

  // ----- The statements as instances of the row lemmas -----

  lemma RevokeSessionsKeeps(db: Tables, s: Subject, now: Time)
    requires Valid(db)
    ensures Valid(RevokeAccountSessions(db, s, now)) && Follows(db, RevokeAccountSessions(db, s, now), {})
    ensures forall id ::
      id in RevokeAccountSessions(db, s, now).sessions
        && RevokeAccountSessions(db, s, now).sessions[id].subject == s ==>
      Revoked(RevokeAccountSessions(db, s, now).sessions[id])
  {
    SessionRowsKeep(db, RevokeAccountSessions(db, s, now).sessions);
  }

  lemma RevokeSessionKeeps(db: Tables, id: SessionId, now: Time)
    requires Valid(db) && id in db.sessions
    ensures Valid(RevokeRefreshSession(db, id, now)) && Follows(db, RevokeRefreshSession(db, id, now), {})
  {
    SessionRowsKeep(db, RevokeRefreshSession(db, id, now).sessions);
  }

  lemma StampProofKeeps(db: Tables, id: SessionId, now: Time)
    requires Valid(db) && id in db.sessions && !Revoked(db.sessions[id])
    ensures Valid(StampProof(db, id, now)) && Follows(db, StampProof(db, id, now), {})
  {
    SessionRowsKeep(db, StampProof(db, id, now).sessions);
  }

  lemma ReplaceKeeps(db: Tables, s: Subject, p: Purpose, now: Time)
    requires Valid(db)
    ensures var db' := ReplaceCurrentChallenge(db, s, p, now);
      Valid(db') && Follows(db, db', {s}) && forall id :: !IsCurrentChallenge(db'.challenges, id, s, p)
  {
    ChallengeRowsKeep(db, ReplaceCurrentChallenge(db, s, p, now).challenges, s);
  }

  lemma RevokeChallengesKeeps(db: Tables, s: Subject, now: Time)
    requires Valid(db)
    ensures var db' := RevokeAccountChallenges(db, s, now);
      Valid(db') && Follows(db, db', {s}) && forall id :: id in db'.challenges && db'.challenges[id].subject == s ==>
        !Current(db'.challenges[id])
  {
    ChallengeRowsKeep(db, RevokeAccountChallenges(db, s, now).challenges, s);
  }

  lemma ConsumeKeeps(db: Tables, id: ChallengeId, now: Time)
    requires Valid(db) && Open(db, id, now)
    ensures Valid(ConsumeCurrentChallenge(db, id, now))
    ensures Follows(db, ConsumeCurrentChallenge(db, id, now), {db.challenges[id].subject})
  {
    ChallengeRowsKeep(db, ConsumeCurrentChallenge(db, id, now).challenges, db.challenges[id].subject);
  }

  lemma WrongGuessKeeps(db: Tables, id: ChallengeId, now: Time)
    requires Valid(db) && id in db.challenges
    ensures Valid(IncrementChallengeWrongGuess(db, id, now))
    ensures Follows(db, IncrementChallengeWrongGuess(db, id, now), {db.challenges[id].subject})
  {
    if Open(db, id, now) {
      ChallengeRowsKeep(db, IncrementChallengeWrongGuess(db, id, now).challenges, db.challenges[id].subject);
    } else {
      FollowsIsReflexive(db, {db.challenges[id].subject});
    }
  }

  /** Deleting material of replaced or consumed challenges of one account. */
  lemma DeleteMaterialKeeps(db: Tables, kept: Deliveries, s: Subject)
    requires Valid(db) && (forall id :: id in kept ==> id in db.deliveries && kept[id] == db.deliveries[id])
    requires forall id :: id in db.deliveries && id !in kept ==>
      id in db.challenges && db.challenges[id].subject == s && !Current(db.challenges[id])
    ensures Valid(db.(deliveries := kept)) && Follows(db, db.(deliveries := kept), {s})
  {
    FollowsIsReflexive(db, {s});
    DropDeliveriesKeeps(db, kept);
  }

  lemma QueueCodeKeeps(db: Tables, s: Subject, p: Purpose, email: Email, n: NewCode)
    requires Valid(db) && FreshCode(db, n) && IsActive(db.accounts, s, email)
    requires (NeedsVerifiedEmail(p) ==> Verified(db.accounts[s]))
    requires forall other :: !IsCurrentChallenge(db.challenges, other, s, p)
    ensures Valid(QueueCode(db, s, p, email, n)) && Follows(db, QueueCode(db, s, p, email, n), {})
  {
    CreateChallengeKeeps(db, n.id, s, p, email, n.code, n.createAt);
    QueueDeliveryKeeps(CreateChallenge(db, n.id, s, p, email, n.code, n.createAt), n.id, n.event, n.queueAt);
    QueuedFollows(db, CreateChallenge(db, n.id, s, p, email, n.code, n.createAt), n);
  }

  lemma QueuedFollows(db: Tables, created: Tables, n: NewCode)
    requires Valid(db) && FreshCode(db, n) && n.id in created.challenges
    requires Follows(db, created, {}) && created.deliveries == db.deliveries && created.events == db.events
    ensures var stored := StoreChallengeDelivery(created, n.id, Seal(n.id, created.challenges[n.id]));
      Follows(db, CreateOutboxEvent(stored, n.event, n.id, n.queueAt), {})
  {
  }

  lemma IssueCodeKeeps(db: Tables, s: Subject, p: Purpose, n: NewCode)
    requires Valid(db) && FreshCode(db, n) && s in db.accounts && !Retired(db.accounts[s])
    requires NeedsVerifiedEmail(p) ==> Verified(db.accounts[s])
    ensures Valid(IssueCode(db, s, p, n)) && Follows(db, IssueCode(db, s, p, n), {s})
  {
    var replaced := ReplaceCurrentChallenge(db, s, p, n.replaceAt);
    ReplaceKeeps(db, s, p, n.replaceAt);
    var cleared := ReplaceCode(db, s, p, n.replaceAt);
    if NeedsVerifiedEmail(p) {
      DeleteMaterialKeeps(replaced, cleared.deliveries, s);
      FollowsIsTransitive(db, replaced, cleared, {s});
    }
    forall other ensures !IsCurrentChallenge(cleared.challenges, other, s, p) {
      assert !IsCurrentChallenge(replaced.challenges, other, s, p);
    }
    QueueCodeKeeps(cleared, s, p, db.accounts[s].email, n);
    FollowsWidens(cleared, IssueCode(db, s, p, n), {}, {s});
    FollowsIsTransitive(db, cleared, IssueCode(db, s, p, n), {s});
  }

  lemma SubmitCodeKeeps(db: Tables, s: Subject, p: Purpose, code: string, appNow: Time, guessAt: Time)
    requires Valid(db) && s in db.accounts
    ensures var g := SubmitCode(db, s, p, code, appNow, guessAt);
      Valid(g.db) && Follows(db, g.db, {s}) && g.db.accounts == db.accounts && g.db.sessions == db.sessions
        && g.db.rotated == db.rotated
  {
    hide Valid, Follows;
    FollowsIsReflexive(db, {s});
    var found := FindCurrent(db.challenges, s, p);
    if found.Some? {
      WrongGuessKeeps(db, found.value, guessAt);
      if Open(db, found.value, guessAt) { ConsumeKeeps(db, found.value, guessAt); }
    }
  }

  lemma OpenSessionKeeps(db: Tables, s: Subject, n: NewSession)
    requires Valid(db) && s in db.accounts && !Retired(db.accounts[s]) && FreshSession(db, n)
    ensures Valid(OpenSession(db, s, n)) && Follows(db, OpenSession(db, s, n), {})
  {
    InsertSessionKeeps(db, n.id, s, n.token, n.createAt);
  }

  // ----- The transactions -----

  lemma SignUpKeeps(db: Tables, settled: map<Subject, Time>, now: Time, tx: Tx)
    requires Valid(db) && tx.SignUp? && Fits(db, settled, now, tx)
    ensures Valid(After(RunSignUp(db, tx))) && Follows(db, After(RunSignUp(db, tx)), {})
  {
    if exists s :: s in db.accounts && IsActive(db.accounts, s, tx.email) {
      FollowsIsReflexive(db, {});
    } else {
      hide Valid, Follows, OpenSession, QueueCode, InsertAccount;
      SignedInKeeps(db, tx.subject, tx.email, tx.hash, tx.session);
      var signedIn := OpenSession(InsertAccount(db, tx.subject, tx.email, Some(tx.hash), None), tx.subject, tx.session);
      QueueCodeKeeps(signedIn, tx.subject, PurposeVerifyEmail, tx.email, tx.issue);
      FollowsIsTransitive(db, signedIn, QueueCode(signedIn, tx.subject, PurposeVerifyEmail, tx.email, tx.issue), {});
    }
  }

  // A new account with its first session, before its first code.
  lemma SignedInKeeps(db: Tables, s: Subject, email: Email, hash: PasswordHash, n: NewSession)
    requires Valid(db) && s !in db.accounts && FreshSession(db, n) && forall t :: !IsActive(db.accounts, t, email)
    ensures var signedIn := OpenSession(InsertAccount(db, s, email, Some(hash), None), s, n);
      && Valid(signedIn) && Follows(db, signedIn, {}) && IsActive(signedIn.accounts, s, email)
      && signedIn.challenges == db.challenges && signedIn.events == db.events
      && forall other :: !IsCurrentChallenge(signedIn.challenges, other, s, PurposeVerifyEmail)
  {
    NoChallengeOf(db, s);
    hide Valid, Follows;
    var created := InsertAccount(db, s, email, Some(hash), None);
    InsertAccountKeeps(db, s, email, Some(hash), None);
    OpenSessionKeeps(created, s, n);
    FollowsIsTransitive(db, created, OpenSession(created, s, n), {});
  }

  lemma NoChallengeOf(db: Tables, s: Subject)
    requires Valid(db) && s !in db.accounts
    ensures forall id, p :: !IsCurrentChallenge(db.challenges, id, s, p)
  {
    hide AccountsValid, SessionsValid, TokensValid, OneCurrent, DeliveriesValid, DeliveriesQueued, EventsValid;
    hide LinksValid, NoticesValid;
  }

  lemma RequestVerificationCodeKeeps(db: Tables, tx: Tx)
    requires Valid(db) && tx.RequestVerificationCode? && FreshCode(db, tx.issue)
    ensures Valid(After(RunRequestVerificationCode(db, tx)))
    ensures Follows(db, After(RunRequestVerificationCode(db, tx)), {tx.caller})
  {
    FollowsIsReflexive(db, {tx.caller});
    if SessionActive(db, tx.caller, tx.login, tx.lockAt) {
      IssueCodeKeeps(db, tx.caller, PurposeVerifyEmail, tx.issue);
    }
  }

  lemma RequestClaimCodeKeeps(db: Tables, tx: Tx)
    requires Valid(db) && tx.RequestClaimCode? && FreshCode(db, tx.issue)
    ensures Valid(After(RunRequestClaimCode(db, tx)))
    ensures Follows(db, After(RunRequestClaimCode(db, tx)), Locked(FindActive(db.accounts, tx.email)))
  {
    var found := FindActive(db.accounts, tx.email);
    FollowsIsReflexive(db, Locked(found));
    if found.Some? { IssueCodeKeeps(db, found.value, PurposeClaimAccount, tx.issue); }
  }

  lemma RequestResetCodeKeeps(db: Tables, tx: Tx)
    requires Valid(db) && tx.RequestResetCode? && FreshCode(db, tx.issue)
    ensures Valid(After(RunRequestResetCode(db, tx)))
    ensures Follows(db, After(RunRequestResetCode(db, tx)), Locked(FindActive(db.accounts, tx.email)))
  {
    var found := FindActive(db.accounts, tx.email);
    FollowsIsReflexive(db, Locked(found));
    if found.Some? && CanRecover(db.accounts[found.value]) {
      IssueCodeKeeps(db, found.value, PurposePasswordReset, tx.issue);
    }
  }

  lemma RequestReauthenticationCodeKeeps(db: Tables, tx: Tx)
    requires Valid(db) && tx.RequestReauthenticationCode? && FreshCode(db, tx.issue)
    ensures Valid(After(RunRequestReauthenticationCode(db, tx)))
    ensures Follows(db, After(RunRequestReauthenticationCode(db, tx)), {tx.caller})
  {
    hide Valid, Follows, IssueCode;
    FollowsIsReflexive(db, {tx.caller});
    if SessionLocked(db, tx.caller, tx.login, tx.lockAt, tx.observedAt) && Verified(db.accounts[tx.caller]) {
      IssueCodeKeeps(db, tx.caller, PurposeReauthenticate, tx.issue);
    }
  }

  lemma VerifyEmailKeeps(db: Tables, tx: Tx)
    requires Valid(db) && tx.VerifyEmail?
    ensures Valid(After(RunVerifyEmail(db, tx))) && Follows(db, After(RunVerifyEmail(db, tx)), {tx.caller})
  {
    FollowsIsReflexive(db, {tx.caller});
    if tx.caller in db.accounts {
      var g := SubmitCode(db, tx.caller, PurposeVerifyEmail, tx.code, tx.appNow, tx.guessAt);
      SubmitCodeKeeps(db, tx.caller, PurposeVerifyEmail, tx.code, tx.appNow, tx.guessAt);
      MarkEmailVerifiedKeeps(g.db, tx.caller, tx.writeAt);
      FollowsIsTransitive(db, g.db, MarkEmailVerified(g.db, tx.caller, tx.writeAt), {tx.caller});
    }
  }

  lemma MarkEmailVerifiedKeeps(db: Tables, s: Subject, now: Time)
    requires Valid(db)
    ensures Valid(MarkEmailVerified(db, s, now)) && Follows(db, MarkEmailVerified(db, s, now), {s})
  {
    if CanVerify(db, s) {
      AccountRowKeeps(db, s, db.accounts[s].(verifiedAt := Some(now)));
    } else {
      FollowsIsReflexive(db, {s});
    }
  }

  /** Retirement leaves no usable session, challenge or material behind. */
  lemma RetireAndRevokeKeeps(db: Tables, s: Subject, now: Time)
    requires Valid(db) && CanVerify(db, s)
    ensures var db' := RetireAndRevoke(db, s, now);
      Valid(db') && Follows(db, db', {s}) && db'.accounts == db.accounts[s := db.accounts[s].(retiredAt := Some(now))]
  {
    hide Follows;
    var signedOut := RevokeAccountSessions(db, s, now);
    RevokeSessionsKeeps(db, s, now);
    FollowsWidens(db, signedOut, {}, {s});
    var revoked := RevokeAccountChallenges(signedOut, s, now);
    RevokeChallengesKeeps(signedOut, s, now);
    FollowsIsTransitive(db, signedOut, revoked, {s});
    var cleared := DeleteAccountChallengeDeliveries(revoked, s);
    DeleteMaterialKeeps(revoked, cleared.deliveries, s);
    FollowsIsTransitive(db, revoked, cleared, {s});
    var a := cleared.accounts[s].(retiredAt := Some(now));
    AccountRowKeeps(cleared, s, a);
    FollowsIsTransitive(db, cleared, cleared.(accounts := cleared.accounts[s := a]), {s});
  }

  lemma ClaimAccountKeeps(db: Tables, settled: map<Subject, Time>, now: Time, tx: Tx)
    requires Valid(db) && tx.ClaimAccount? && Fits(db, settled, now, tx)
    ensures Valid(After(RunClaimAccount(db, tx))) && Follows(db, After(RunClaimAccount(db, tx)), Locks(db, tx))
  {
    var found := FindActive(db.accounts, tx.email);
    FollowsIsReflexive(db, Locked(found));
    if found.Some? && !Verified(db.accounts[found.value]) {
      var s := found.value;
      var g := SubmitCode(db, s, PurposeClaimAccount, tx.code, tx.appNow, tx.guessAt);
      SubmitCodeKeeps(db, s, PurposeClaimAccount, tx.code, tx.appNow, tx.guessAt);
      if g.Hit? {
        ReplaceAccountKeeps(g.db, s, tx);
        FollowsIsTransitive(db, g.db, After(RunClaimAccount(db, tx)), {s});
      }
    }
  }

  lemma ReplaceAccountKeeps(db: Tables, s: Subject, tx: Tx)
    requires Valid(db) && tx.ClaimAccount? && IsActive(db.accounts, s, tx.email) && !Verified(db.accounts[s])
    requires tx.subject !in db.accounts && FreshSession(db, tx.session)
    ensures var retired := RetireAndRevoke(db, s, tx.writeAt);
      var created := InsertAccount(retired, tx.subject, tx.email, Some(tx.hash), None);
      var db' := OpenSession(MarkEmailVerified(created, tx.subject, tx.writeAt), tx.subject, tx.session);
      Valid(db') && Follows(db, db', {s})
  {
    var retired := RetireAndRevoke(db, s, tx.writeAt);
    RetireAndRevokeKeeps(db, s, tx.writeAt);
    forall t ensures !IsActive(retired.accounts, t, tx.email) {
      if t in db.accounts && t != s { assert !IsActive(db.accounts, t, tx.email); }
    }
    assert TokenUnused(retired, tx.session.token) && tx.session.id !in retired.sessions;
    NewVerifiedAccountKeeps(retired, tx);
    var created := InsertAccount(retired, tx.subject, tx.email, Some(tx.hash), None);
    var db' := OpenSession(MarkEmailVerified(created, tx.subject, tx.writeAt), tx.subject, tx.session);
    FollowsWidens(retired, db', {}, {s});
    FollowsIsTransitive(db, retired, db', {s});
  }

  lemma NewVerifiedAccountKeeps(db: Tables, tx: Tx)
    requires Valid(db) && tx.ClaimAccount? && (forall t :: !IsActive(db.accounts, t, tx.email))
    requires tx.subject !in db.accounts && FreshSession(db, tx.session)
    ensures var created := InsertAccount(db, tx.subject, tx.email, Some(tx.hash), None);
      var db' := OpenSession(MarkEmailVerified(created, tx.subject, tx.writeAt), tx.subject, tx.session);
      Valid(db') && Follows(db, db', {})
  {
    // Creating the account unverified and verifying it leaves the row that one insertion would.
    var created := InsertAccount(db, tx.subject, tx.email, Some(tx.hash), None);
    var verified := InsertAccount(db, tx.subject, tx.email, Some(tx.hash), Some(tx.writeAt));
    assert MarkEmailVerified(created, tx.subject, tx.writeAt).accounts == verified.accounts;
    InsertAccountKeeps(db, tx.subject, tx.email, Some(tx.hash), Some(tx.writeAt));
    OpenSessionKeeps(verified, tx.subject, tx.session);
    FollowsIsTransitive(db, verified, OpenSession(verified, tx.subject, tx.session), {});
  }

  lemma ResetPasswordKeeps(db: Tables, settled: map<Subject, Time>, now: Time, tx: Tx)
    requires Valid(db) && tx.ResetPassword? && Fits(db, settled, now, tx)
    ensures Valid(After(RunResetPassword(db, tx))) && Follows(db, After(RunResetPassword(db, tx)), Locks(db, tx))
  {
    var found := FindActive(db.accounts, tx.email);
    hide Valid, Follows, ApplyPasswordReset;
    FollowsIsReflexive(db, Locked(found));
    if found.Some? && CanRecover(db.accounts[found.value]) {
      var s := found.value;
      var g := SubmitCode(db, s, PurposePasswordReset, tx.code, tx.appNow, tx.guessAt);
      SubmitCodeKeeps(db, s, PurposePasswordReset, tx.code, tx.appNow, tx.guessAt);
      if g.Hit? {
        ApplyPasswordResetKeeps(g.db, s, g.id, tx.hash, tx.notice, tx.writeAt);
        FollowsIsTransitive(db, g.db, After(RunResetPassword(db, tx)), {s});
      }
    }
  }

  lemma ClearResetChallengesKeeps(db: Tables, s: Subject, id: ChallengeId, now: Time)
    requires Valid(db) && id in db.challenges && db.challenges[id].subject == s && !Current(db.challenges[id])
    ensures var replaced := ReplaceCurrentChallenge(db, s, PurposePasswordReset, now);
      var cleared := DeleteChallengeDelivery(DeleteReplacedChallengeDeliveries(replaced, s, PurposePasswordReset), id);
      Valid(cleared) && Follows(db, cleared, {s}) && cleared.accounts == db.accounts
  {
    var replaced := ReplaceCurrentChallenge(db, s, PurposePasswordReset, now);
    ReplaceKeeps(db, s, PurposePasswordReset, now);
    var cleared := DeleteChallengeDelivery(DeleteReplacedChallengeDeliveries(replaced, s, PurposePasswordReset), id);
    DeleteMaterialKeeps(replaced, cleared.deliveries, s);
    FollowsIsTransitive(db, replaced, cleared, {s});
  }

  lemma ChangePasswordKeeps(db: Tables, s: Subject, hash: PasswordHash, notice: NoticeId, now: Time)
    requires Valid(db) && CanChangePassword(db, s)
    ensures var signedOut := RevokeAccountSessions(UpdatePasswordHash(db, s, hash), s, now);
      Valid(signedOut) && Follows(db, signedOut, {s})
  {
    var updated := UpdatePasswordHash(db, s, hash);
    AccountRowKeeps(db, s, db.accounts[s].(passwordHash := Some(hash)));
    var signedOut := RevokeAccountSessions(updated, s, now);
    RevokeSessionsKeeps(updated, s, now);
    FollowsWidens(updated, signedOut, {}, {s});
    FollowsIsTransitive(db, updated, signedOut, {s});
  }

  lemma ApplyPasswordResetKeeps(
    db: Tables, s: Subject, id: ChallengeId, hash: PasswordHash, notice: NoticeId, now: Time)
    requires Valid(db) && CanChangePassword(db, s)
    requires id in db.challenges && db.challenges[id].subject == s && !Current(db.challenges[id])
    ensures Valid(ApplyPasswordReset(db, s, id, hash, notice, now))
    ensures Follows(db, ApplyPasswordReset(db, s, id, hash, notice, now), {s})
  {
    var replaced := ReplaceCurrentChallenge(db, s, PurposePasswordReset, now);
    var cleared := DeleteChallengeDelivery(DeleteReplacedChallengeDeliveries(replaced, s, PurposePasswordReset), id);
    ClearResetChallengesKeeps(db, s, id, now);
    var signedOut := RevokeAccountSessions(UpdatePasswordHash(cleared, s, hash), s, now);
    ChangePasswordKeeps(cleared, s, hash, notice, now);
    FollowsIsTransitive(db, cleared, signedOut, {s});
    NoticeKeeps(db, signedOut, notice, s, now);
  }

  lemma NoticeKeeps(before: Tables, db: Tables, n: NoticeId, s: Subject, now: Time)
    requires Valid(db) && Follows(before, db, {s})
    ensures Valid(QueuePasswordChangeNotice(db, n, s, now))
    ensures Follows(before, QueuePasswordChangeNotice(db, n, s, now), {s})
  {
  }

  lemma CommitProofKeeps(db: Tables, id: SessionId, observedAt: Time, deadline: Time, c: CommitClock)
    requires Valid(db) && id in db.sessions && !Revoked(db.sessions[id])
    ensures var p := CommitProof(db, id, observedAt, deadline, c);
      p.Some? ==> Valid(p.value) && Follows(db, p.value, {})
  {
    FollowsIsReflexive(db, {});
    StampProofKeeps(db, id, c.stampedAt);
  }

  lemma ReauthenticateKeeps(db: Tables, tx: Tx)
    requires Valid(db) && (tx.ReauthenticateWithCode? || tx.ReauthenticateWithProof?)
    ensures Valid(After(Run(db, tx))) && Follows(db, After(Run(db, tx)), {tx.caller})
  {
    hide Valid, Follows;
    FollowsIsReflexive(db, {tx.caller});
    if SessionLocked(db, tx.caller, tx.login, tx.lockAt, tx.observedAt) {
      var w := WindowOf(db.sessions[tx.login]);
      match tx
      case ReauthenticateWithCode(s, id, code, _, observedAt, guessAt, windowAt, c) =>
        var g := SubmitCode(db, s, PurposeReauthenticate, code, observedAt, guessAt);
        SubmitCodeKeeps(db, s, PurposeReauthenticate, code, observedAt, guessAt);
        if g.Hit? {
          var deadline := Min(SessionDeadline(w), db.challenges[g.id].expiresAt);
          CommitProofKeeps(g.db, id, windowAt, deadline, c);
          var p := CommitProof(g.db, id, windowAt, deadline, c);
          if p.Some? {
            FollowsWidens(g.db, p.value, {}, {s});
            FollowsIsTransitive(db, g.db, p.value, {s});
          }
        }
      case ReauthenticateWithProof(s, id, _, observedAt, c) =>
        CommitProofKeeps(db, id, observedAt, SessionDeadline(w), c);
        var p := CommitProof(db, id, observedAt, SessionDeadline(w), c);
        if p.Some? { FollowsWidens(db, p.value, {}, {s}); }
    }
  }

  lemma IssueLoginKeeps(db: Tables, settled: map<Subject, Time>, now: Time, tx: Tx)
    requires Valid(db) && tx.IssueLogin? && Fits(db, settled, now, tx)
    ensures Valid(After(RunIssueLogin(db, tx))) && Follows(db, After(RunIssueLogin(db, tx)), {})
  {
    FollowsIsReflexive(db, {});
    if tx.caller in db.accounts && !Retired(db.accounts[tx.caller]) { OpenSessionKeeps(db, tx.caller, tx.session); }
  }

  lemma ProviderLoginKeeps(db: Tables, settled: map<Subject, Time>, now: Time, tx: Tx)
    requires Valid(db) && tx.ProviderLogin? && Fits(db, settled, now, tx)
    ensures Valid(After(RunProviderLogin(db, tx))) && Follows(db, After(RunProviderLogin(db, tx)), {})
  {
    FollowsIsReflexive(db, {});
    assert tx.who in db.links ==> db.links[tx.who] in db.accounts;
    hide Valid, Follows, OpenSession, QueueCode, InsertAccount, CreateProviderLink;
    if tx.who in db.links {
      if !Retired(db.accounts[db.links[tx.who]]) { OpenSessionKeeps(db, db.links[tx.who], tx.session); }
    } else if tx.usable.Some? && !exists s :: s in db.accounts && IsActive(db.accounts, s, tx.usable.value.email) {
      NewProviderAccountKeeps(db, tx.subject, tx.usable.value, tx.who, tx.session, tx.issue);
    }
  }

  /** CreateProviderAccount: an account without a password, and its link. */
  lemma LinkedAccountKeeps(db: Tables, s: Subject, email: Email, verifiedAt: Option<Time>, who: ProviderIdentity)
    requires Valid(db) && who !in db.links && s !in db.accounts && (forall t :: !IsActive(db.accounts, t, email))
    ensures var linked := CreateProviderLink(InsertAccount(db, s, email, None, verifiedAt), who, s);
      Valid(linked) && Follows(db, linked, {})
  {
    InsertAccountKeeps(db, s, email, None, verifiedAt);
    LinkKeeps(db, InsertAccount(db, s, email, None, verifiedAt), who, s);
  }

  lemma NewProviderAccountKeeps(
    db: Tables, s: Subject, usable: ProviderEmail, who: ProviderIdentity, session: NewSession, n: NewCode)
    requires Valid(db) && who !in db.links && s !in db.accounts && (forall t :: !IsActive(db.accounts, t, usable.email))
    requires FreshSession(db, session) && FreshCode(db, n)
    ensures
      var verifiedAt := if usable.verified then Some(session.createAt) else None;
      var linked := CreateProviderLink(InsertAccount(db, s, usable.email, None, verifiedAt), who, s);
      var queued := if usable.verified then linked else QueueCode(linked, s, PurposeVerifyEmail, usable.email, n);
      Valid(OpenSession(queued, s, session)) && Follows(db, OpenSession(queued, s, session), {})
  {
    var verifiedAt := if usable.verified then Some(session.createAt) else None;
    var linked := CreateProviderLink(InsertAccount(db, s, usable.email, None, verifiedAt), who, s);
    LinkedAccountKeeps(db, s, usable.email, verifiedAt, who);
    var queued := if usable.verified then linked else QueueCode(linked, s, PurposeVerifyEmail, usable.email, n);
    if !usable.verified {
      QueueCodeKeeps(linked, s, PurposeVerifyEmail, usable.email, n);
      FollowsIsTransitive(db, linked, queued, {});
    }
    OpenSessionKeeps(queued, s, session);
    FollowsIsTransitive(db, queued, OpenSession(queued, s, session), {});
  }

  lemma LinkKeeps(before: Tables, db: Tables, who: ProviderIdentity, s: Subject)
    requires Valid(db) && s in db.accounts && who !in db.links && Follows(before, db, {})
    ensures Valid(CreateProviderLink(db, who, s)) && Follows(before, CreateProviderLink(db, who, s), {})
  {
  }

  lemma RotateKeeps(db: Tables, settled: map<Subject, Time>, now: Time, tx: Tx)
    requires Valid(db) && tx.Rotate? && Fits(db, settled, now, tx) && IdleBounded(db.sessions, settled)
    ensures Valid(After(RunRotate(db, tx))) && Follows(db, After(RunRotate(db, tx)), {})
  {
    hide Follows;
    FollowsIsReflexive(db, {});
    if tx.login in db.sessions {
      RevokeSessionKeeps(db, tx.login, tx.writeAt);
      if CanRotate(db, tx.login, tx.spent, tx.writeAt) { RotationKeeps(db, tx.next, tx.login, tx.spent, tx.writeAt); }
    }
  }

  lemma LogoutKeeps(db: Tables, tx: Tx)
    requires Valid(db) && (tx.LogoutCurrent? || tx.LogoutAll?)
    ensures Valid(After(Run(db, tx))) && Follows(db, After(Run(db, tx)), {})
  {
    hide Valid, Follows;
    FollowsIsReflexive(db, {});
    RevokeSessionsKeeps(db, tx.caller, tx.writeAt);
    if tx.login in db.sessions { RevokeSessionKeeps(db, tx.login, tx.writeAt); }
  }

  lemma AccountTransactionKeeps(db: Tables, settled: map<Subject, Time>, now: Time, tx: Tx)
    requires Valid(db) && Fits(db, settled, now, tx)
    requires tx.SignUp? || tx.VerifyEmail? || tx.ClaimAccount? || tx.ResetPassword? || tx.ProviderLogin?
    ensures Valid(After(Run(db, tx))) && Follows(db, After(Run(db, tx)), Locks(db, tx))
  {
    hide Valid, Follows, Fits;
    if tx.SignUp? { SignUpKeeps(db, settled, now, tx); }
    if tx.VerifyEmail? { VerifyEmailKeeps(db, tx); }
    if tx.ClaimAccount? { ClaimAccountKeeps(db, settled, now, tx); }
    if tx.ResetPassword? { ResetPasswordKeeps(db, settled, now, tx); }
    if tx.ProviderLogin? {
      ProviderLoginKeeps(db, settled, now, tx);
      FollowsWidens(db, After(Run(db, tx)), {}, Locks(db, tx));
    }
  }

  lemma CodeTransactionKeeps(db: Tables, settled: map<Subject, Time>, now: Time, tx: Tx)
    requires Valid(db) && Fits(db, settled, now, tx)
    requires tx.RequestVerificationCode? || tx.RequestClaimCode? || tx.RequestResetCode?
      || tx.RequestReauthenticationCode?
    ensures Valid(After(Run(db, tx))) && Follows(db, After(Run(db, tx)), Locks(db, tx))
  {
    hide Valid, Follows;
    if tx.RequestVerificationCode? { RequestVerificationCodeKeeps(db, tx); }
    if tx.RequestClaimCode? { RequestClaimCodeKeeps(db, tx); }
    if tx.RequestResetCode? { RequestResetCodeKeeps(db, tx); }
    if tx.RequestReauthenticationCode? { RequestReauthenticationCodeKeeps(db, tx); }
  }

  lemma SessionStateKeeps(db: Tables, settled: map<Subject, Time>, now: Time, tx: Tx)
    requires Valid(db) && Fits(db, settled, now, tx) && IdleBounded(db.sessions, settled)
    requires tx.IssueLogin? || tx.Rotate? || tx.LogoutCurrent? || tx.LogoutAll?
    ensures Valid(After(Run(db, tx))) && Follows(db, After(Run(db, tx)), {})
  {
    hide Valid, Follows;
    if tx.IssueLogin? {
      IssueLoginKeeps(db, settled, now, tx);
    } else if tx.Rotate? {
      RotateKeeps(db, settled, now, tx);
    } else {
      LogoutKeeps(db, tx);
    }
  }

  lemma SessionTransactionKeeps(db: Tables, settled: map<Subject, Time>, now: Time, tx: Tx)
    requires Valid(db) && Fits(db, settled, now, tx) && IdleBounded(db.sessions, settled)
    requires tx.ReauthenticateWithCode? || tx.ReauthenticateWithProof? || tx.IssueLogin? || tx.Rotate?
      || tx.LogoutCurrent? || tx.LogoutAll?
    ensures Valid(After(Run(db, tx))) && Follows(db, After(Run(db, tx)), Locks(db, tx))
  {
    hide Valid, Follows, Fits;
    if tx.ReauthenticateWithCode? || tx.ReauthenticateWithProof? {
      ReauthenticateKeeps(db, tx);
    } else {
      SessionStateKeeps(db, settled, now, tx);
      FollowsWidens(db, After(Run(db, tx)), {}, Locks(db, tx));
    }
  }

  /** Every transaction keeps the tables valid and touches only the rows of the accounts that it locks. */
  lemma TransactionKeeps(db: Tables, settled: map<Subject, Time>, now: Time, tx: Tx)
    requires Valid(db) && Fits(db, settled, now, tx) && IdleBounded(db.sessions, settled)
    ensures Valid(After(Run(db, tx))) && Follows(db, After(Run(db, tx)), Locks(db, tx))
  {
    if tx.RequestVerificationCode? || tx.RequestClaimCode? || tx.RequestResetCode? || tx.RequestReauthenticationCode? {
      CodeTransactionKeeps(db, settled, now, tx);
    } else if tx.SignUp? || tx.VerifyEmail? || tx.ClaimAccount? || tx.ResetPassword? || tx.ProviderLogin? {
      AccountTransactionKeeps(db, settled, now, tx);
    } else {
      SessionTransactionKeeps(db, settled, now, tx);
    }
  }
}
