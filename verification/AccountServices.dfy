/**
 The account services, step by step on the store: each method runs the statements of
 its transaction in the source's order, rolls back a refused one, and is proved to give
 the reply and the tables of its specification in Transactions.
 */
module AccountServices {
  import opened Options
  import opened Clock
  import opened Schema
  import opened Statements
  import opened Consistency
  import opened Reauthentication
  import opened ChallengeCheck
  import opened Transactions
  import opened Database
  import opened AccountTransaction
  import TransactionProofs
  import AccountTheorems

  // ----- Codes -----

  /** queueVerificationCode and its siblings: the challenge, its sealed material and its event. */
  method QueueCode(db: Store, s: Subject, p: Purpose, email: Email, n: NewCode)
    modifies db
    ensures db.Contents() == Transactions.QueueCode(old(db.Contents()), s, p, email, n)
  {
    db.CreateChallenge(n.id, s, p, email, n.code, n.createAt);
    db.StoreChallengeDelivery(n.id, Sealed(n.id, p, s, email, n.code));
    db.CreateOutboxEvent(n.event, n.id, n.queueAt);
  }

  method IssueCode(db: Store, s: Subject, p: Purpose, n: NewCode)
    requires s in db.accounts
    modifies db
    ensures db.Contents() == Transactions.IssueCode(old(db.Contents()), s, p, n)
  {
    var email := db.accounts[s].email;
    db.ReplaceCurrentChallenge(s, p, n.replaceAt);
    if NeedsVerifiedEmail(p) {
      db.DeleteReplacedChallengeDeliveries(s, p);
    }
    QueueCode(db, s, p, email, n);
  }

  /**
   Compares a submitted code with the account's current challenge, then counts the wrong guess or consumes the
   challenge.
   */
  method SubmitCode(
    db: Store, s: Subject, p: Purpose, code: string, appNow: Time, guessAt: Time) returns (hit: Option<ChallengeId>)
    requires s in db.accounts && OneCurrent(db.challenges)
    modifies db
    ensures var g := Transactions.SubmitCode(old(db.Contents()), s, p, code, appNow, guessAt);
      db.Contents() == g.db && hit == if g.Hit? then Some(g.id) else None
  {
    if !ValidVerificationCode(code) {
      return None;
    }
    var found := db.GetCurrentChallenge(s, p);
    if found.None? {
      return None;
    }
    var id := found.value;
    var check := CheckInFixedTime(db.challenges[id], s, db.accounts[s].email, p, code, appNow);
    if check == CodeWrongGuess {
      db.IncrementChallengeWrongGuess(id, guessAt);
      return None;
    }
    if check == CodeRejected {
      return None;
    }
    var consumed := db.ConsumeCurrentChallenge(id, guessAt);
    hit := if consumed then Some(id) else None;
  }

  method SignUp(db: Store, tx: Tx) returns (reply: Reply)
    requires tx.SignUp? && tx.subject !in db.accounts
    modifies db
    ensures (reply, db.Contents()) == RunSignUp(old(db.Contents()), tx)
  {
    var created := db.CreateAccount(tx.subject, tx.email, Some(tx.hash), None);
    if !created {
      return Refused(AccountExists);
    }
    db.CreateSession(tx.session.id, tx.subject, tx.session.token, tx.session.createAt);
    QueueCode(db, tx.subject, PurposeVerifyEmail, tx.email, tx.issue);
    reply := Accepted;
  }

  method RequestVerificationCode(db: Store, tx: Tx) returns (reply: Reply)
    requires tx.RequestVerificationCode?
    modifies db
    ensures (reply, db.Contents()) == RunRequestVerificationCode(old(db.Contents()), tx)
  {
    if !SessionActive(db.Contents(), tx.caller, tx.login, tx.lockAt) {
      return Refused(Unauthenticated);
    }
    if db.accounts[tx.caller].verifiedAt.Some? {
      return Refused(AlreadyVerified);
    }
    if !CanIssueCode(db.Contents(), tx.caller, tx.checkAt) {
      return Refused(RateLimited);
    }
    IssueCode(db, tx.caller, PurposeVerifyEmail, tx.issue);
    reply := Accepted;
  }

  method RequestClaimCode(db: Store, tx: Tx) returns (reply: Reply)
    requires tx.RequestClaimCode? && AccountsValid(db.accounts)
    modifies db
    ensures (reply, db.Contents()) == RunRequestClaimCode(old(db.Contents()), tx)
  {
    reply := Accepted;
    var found := db.GetActiveAccountByEmail(tx.email);
    if found.None? || db.accounts[found.value].verifiedAt.Some? {
      return;
    }
    if !CanIssueCode(db.Contents(), found.value, tx.checkAt) {
      return;
    }
    IssueCode(db, found.value, PurposeClaimAccount, tx.issue);
  }

  method RequestResetCode(db: Store, tx: Tx) returns (reply: Reply)
    requires tx.RequestResetCode? && AccountsValid(db.accounts)
    modifies db
    ensures (reply, db.Contents()) == RunRequestResetCode(old(db.Contents()), tx)
  {
    reply := Accepted;
    var found := db.GetActiveAccountByEmail(tx.email);
    if found.None? || db.accounts[found.value].verifiedAt.None? || db.accounts[found.value].passwordHash.None? {
      return;
    }
    if !CanIssueCode(db.Contents(), found.value, tx.checkAt) {
      return;
    }
    IssueCode(db, found.value, PurposePasswordReset, tx.issue);
  }

  method RequestReauthenticationCode(db: Store, tx: Tx) returns (reply: Reply)
    requires tx.RequestReauthenticationCode?
    modifies db
    ensures (reply, db.Contents()) == RunRequestReauthenticationCode(old(db.Contents()), tx)
  {
    var t := new Transaction(db);
    var w := t.LockSessionForReauthentication(tx.caller, tx.login, tx.lockAt, tx.observedAt);
    if w.None? {
      return Refused(Unauthenticated);
    }
    if db.accounts[tx.caller].verifiedAt.None? {
      return Refused(EmailUnverified);
    }
    if ReauthenticationIssuedAfter(db.Contents(), tx.caller, tx.observedAt - MINUTE) {
      return Accepted;
    }
    if !CanIssueCode(db.Contents(), tx.caller, tx.checkAt) {
      return Refused(RateLimited);
    }
    t.RequireCommitBefore(Some(SessionDeadline(w.value)));
    IssueCode(db, tx.caller, PurposeReauthenticate, tx.issue);
    var committed := t.Commit(tx.commit);
    reply := if committed then Accepted else Refused(Unauthenticated);
  }

  method VerifyEmail(db: Store, tx: Tx) returns (reply: Reply)
    requires tx.VerifyEmail? && OneCurrent(db.challenges)
    modifies db
    ensures (reply, db.Contents()) == RunVerifyEmail(old(db.Contents()), tx)
  {
    if !SessionActive(db.Contents(), tx.caller, tx.login, tx.lockAt) {
      return Refused(Unauthenticated);
    }
    if !ValidVerificationCode(tx.code) {
      return InvalidCode;
    }
    if db.accounts[tx.caller].verifiedAt.Some? {
      return Accepted;
    }
    ghost var before := db.Contents();
    var hit := SubmitCode(db, tx.caller, PurposeVerifyEmail, tx.code, tx.appNow, tx.guessAt);
    if hit.None? {
      return InvalidCode;
    }
    AccountTheorems.SubmissionKeepsAccounts(before, tx.caller, PurposeVerifyEmail, tx.code, tx.appNow, tx.guessAt);
    var changed := db.MarkEmailVerified(tx.caller, tx.writeAt);
    // The source rolls back when the guarded update changes no row; under the account lock it changes one.
    assert changed;
    reply := Accepted;
  }

  /** RetireAndRevokeAccount */
  method RetireAndRevoke(db: Store, s: Subject, now: Time) returns (retired: bool)
    modifies db
    ensures db.Contents() == Transactions.RetireAndRevoke(old(db.Contents()), s, now)
    ensures retired == CanVerify(old(db.Contents()), s)
  {
    db.RevokeAccountSessions(s, now);
    db.RevokeAccountChallenges(s, now);
    db.DeleteAccountChallengeDeliveries(s);
    retired := db.RetireUnverifiedAccount(s, now);
  }

  /** replaceAccount: the old account goes, a verified one with the same email comes. */
  method ReplaceAccount(db: Store, s: Subject, tx: Tx) returns (replaced: bool)
    requires tx.ClaimAccount? && Valid(db.Contents()) && IsActive(db.accounts, s, tx.email) && !Verified(db.accounts[s])
    requires tx.subject !in db.accounts
    modifies db
    ensures replaced
    ensures
      var retired := Transactions.RetireAndRevoke(old(db.Contents()), s, tx.writeAt);
      var created := InsertAccount(retired, tx.subject, tx.email, Some(tx.hash), None);
      db.Contents() ==
        OpenSession(Statements.MarkEmailVerified(created, tx.subject, tx.writeAt), tx.subject, tx.session)
  {
    ghost var before := db.accounts;
    var retired := RetireAndRevoke(db, s, tx.writeAt);
    if !retired {
      return false;
    }
    assert db.accounts == before[s := before[s].(retiredAt := Some(tx.writeAt))];
    assert forall t :: IsActive(before, t, tx.email) ==> t == s;
    var created := db.CreateAccount(tx.subject, tx.email, Some(tx.hash), None);
    if !created {
      return false;
    }
    var verified := db.MarkEmailVerified(tx.subject, tx.writeAt);
    if !verified {
      return false;
    }
    db.CreateSession(tx.session.id, tx.subject, tx.session.token, tx.session.createAt);
    replaced := true;
  }

  method ClaimAccount(db: Store, tx: Tx) returns (reply: Reply)
    requires tx.ClaimAccount? && Valid(db.Contents()) && tx.subject !in db.accounts
    modifies db
    ensures (reply, db.Contents()) == RunClaimAccount(old(db.Contents()), tx)
  {
    var found := db.GetActiveAccountByEmail(tx.email);
    if found.None? || db.accounts[found.value].verifiedAt.Some? {
      return InvalidCode;
    }
    TransactionProofs.SubmitCodeKeeps(db.Contents(), found.value, PurposeClaimAccount, tx.code, tx.appNow, tx.guessAt);
    var hit := SubmitCode(db, found.value, PurposeClaimAccount, tx.code, tx.appNow, tx.guessAt);
    if hit.None? {
      return InvalidCode;
    }
    var replaced := ReplaceAccount(db, found.value, tx);
    // The source rolls back when a step of the replacement fails; under the account lock none can.
    assert replaced;
    reply := Accepted;
  }

  method ApplyPasswordReset(
    db: Store, s: Subject, id: ChallengeId, hash: PasswordHash, notice: NoticeId, now: Time) returns (applied: bool)
    modifies db
    ensures applied == CanChangePassword(old(db.Contents()), s)
    ensures applied ==> db.Contents() == Transactions.ApplyPasswordReset(old(db.Contents()), s, id, hash, notice, now)
  {
    db.ReplaceCurrentChallenge(s, PurposePasswordReset, now);
    db.DeleteReplacedChallengeDeliveries(s, PurposePasswordReset);
    var deleted := db.DeleteChallengeDelivery(id);
    applied := db.UpdatePasswordHash(s, hash);
    if applied {
      db.RevokeAccountSessions(s, now);
      db.QueuePasswordChangeNotice(notice, s, now);
    }
  }

  method ResetPassword(db: Store, tx: Tx) returns (reply: Reply)
    requires tx.ResetPassword? && AccountsValid(db.accounts) && OneCurrent(db.challenges)
    modifies db
    ensures (reply, db.Contents()) == RunResetPassword(old(db.Contents()), tx)
  {
    var found := db.GetActiveAccountByEmail(tx.email);
    if found.None? || db.accounts[found.value].verifiedAt.None? || db.accounts[found.value].passwordHash.None? {
      return InvalidCode;
    }
    AccountTheorems.SubmissionKeepsAccounts(db.Contents(), found.value, PurposePasswordReset, tx.code, tx.appNow,
      tx.guessAt);
    var hit := SubmitCode(db, found.value, PurposePasswordReset, tx.code, tx.appNow, tx.guessAt);
    if hit.None? {
      return InvalidCode;
    }
    var applied := ApplyPasswordReset(db, found.value, hit.value, tx.hash, tx.notice, tx.writeAt);
    // The source rolls back when the guarded update changes no row; under the account lock it changes one.
    assert applied;
    reply := Accepted;
  }

  // ----- Re-authentication -----

  method ReauthenticateWithProof(db: Store, tx: Tx) returns (reply: Reply)
    requires tx.ReauthenticateWithProof?
    modifies db
    ensures (reply, db.Contents()) == RunReauthenticateWithProof(old(db.Contents()), tx)
  {
    var t := new Transaction(db);
    var end := t.OpenWindow(tx.caller, tx.login, tx.lockAt, tx.observedAt);
    if end.None? {
      return Refused(Unauthenticated);
    }
    var committed := t.Commit(tx.commit);
    reply := if committed then Accepted else Refused(Unauthenticated);
  }

  /**
   ReauthenticateWithPassword: the stored hash is read and compared under the account lock, then the window opens
   under the same lock.
   */
  method ReauthenticateWithPassword(
    db: Store, tx: Tx, firstLockAt: Time, firstObservedAt: Time, matches: PasswordHash -> bool) returns (reply: Reply)
    requires tx.ReauthenticateWithProof?
    modifies db
    ensures reply == Refused(InvalidCredentials)
      || (reply, db.Contents()) == RunReauthenticateWithProof(old(db.Contents()), tx) ||
      (!SessionLocked(old(db.Contents()), tx.caller, tx.login, firstLockAt, firstObservedAt)
        && reply == Refused(Unauthenticated))
    ensures reply != Accepted ==> db.Contents() == old(db.Contents())
    ensures reply == Accepted ==>
      && SessionLocked(old(db.Contents()), tx.caller, tx.login, firstLockAt, firstObservedAt)
      && (reply, db.Contents()) == RunReauthenticateWithProof(old(db.Contents()), tx)
      && tx.caller in db.accounts && db.accounts[tx.caller] == old(db.accounts)[tx.caller]
      && db.accounts[tx.caller].passwordHash.Some? && matches(db.accounts[tx.caller].passwordHash.value)
    ensures reply == Refused(InvalidCredentials) <==>
      && SessionLocked(old(db.Contents()), tx.caller, tx.login, firstLockAt, firstObservedAt)
      && (old(db.accounts)[tx.caller].passwordHash.None? || !matches(old(db.accounts)[tx.caller].passwordHash.value))
  {
    if !SessionLocked(db.Contents(), tx.caller, tx.login, firstLockAt, firstObservedAt) {
      return Refused(Unauthenticated);
    }
    var hash := db.accounts[tx.caller].passwordHash;
    if hash.None? || !matches(hash.value) {
      return Refused(InvalidCredentials);
    }
    reply := ReauthenticateWithProof(db, tx);
  }

  method ReauthenticateWithCode(db: Store, tx: Tx) returns (reply: Reply)
    requires tx.ReauthenticateWithCode? && OneCurrent(db.challenges)
    modifies db
    ensures (reply, db.Contents()) == RunReauthenticateWithCode(old(db.Contents()), tx)
  {
    var t := new Transaction(db);
    var w := t.LockSessionForReauthentication(tx.caller, tx.login, tx.lockAt, tx.observedAt);
    if w.None? {
      return Refused(Unauthenticated);
    }
    if db.accounts[tx.caller].verifiedAt.None? {
      return InvalidCode;
    }
    SubmittedRows(db.Contents(), tx.caller, tx.code, tx.observedAt, tx.guessAt);
    var hit := SubmitCode(db, tx.caller, PurposeReauthenticate, tx.code, tx.observedAt, tx.guessAt);
    if hit.None? {
      return InvalidCode;
    }
    var challengeExpiry := db.challenges[hit.value].expiresAt;
    // The locks of the first call keep the session active; only its lifetime can run out meanwhile.
    var end := t.OpenWindow(tx.caller, tx.login, tx.lockAt, tx.windowAt);
    if end.None? {
      db.Rollback(t.snapshot);
      return Refused(Unauthenticated);
    }
    t.RequireCommitBefore(Some(challengeExpiry));
    var committed := t.Commit(tx.commit);
    if committed {
      return Accepted;
    }
    reply := if challengeExpiry < end.value then InvalidCode else Refused(Unauthenticated);
  }

  lemma SubmittedRows(db: Tables, s: Subject, code: string, appNow: Time, guessAt: Time)
    requires s in db.accounts
    ensures var g := Transactions.SubmitCode(db, s, PurposeReauthenticate, code, appNow, guessAt);
      && g.db.accounts == db.accounts && g.db.sessions == db.sessions
      && (g.Hit? ==>
            && g.id in db.challenges && g.id in g.db.challenges
            && g.db.challenges[g.id].expiresAt == db.challenges[g.id].expiresAt)
  {
  }

  // ----- Sessions -----

  /** issue: the password's hash was compared before this transaction, and is compared again under the account lock. */
  method IssueLogin(db: Store, tx: Tx) returns (reply: Reply)
    requires tx.IssueLogin?
    modifies db
    ensures (reply, db.Contents()) == RunIssueLogin(old(db.Contents()), tx)
  {
    if tx.caller !in db.accounts || db.accounts[tx.caller].retiredAt.Some?
      || db.accounts[tx.caller].passwordHash.None? {
      return Refused(InvalidCredentials);
    }
    if db.accounts[tx.caller].passwordHash.value != tx.foundHash {
      return Refused(InvalidCredentials);
    }
    db.CreateSession(tx.session.id, tx.caller, tx.session.token, tx.session.createAt);
    reply := Accepted;
  }

  method ProviderLogin(db: Store, tx: Tx) returns (reply: Reply)
    requires tx.ProviderLogin? && tx.subject !in db.accounts
    modifies db
    ensures (reply, db.Contents()) == RunProviderLogin(old(db.Contents()), tx)
  {
    var snapshot := db.Contents();
    if tx.who in db.links && db.links[tx.who] in db.accounts && db.accounts[db.links[tx.who]].retiredAt.None? {
      db.CreateSession(tx.session.id, db.links[tx.who], tx.session.token, tx.session.createAt);
      return Accepted;
    }
    if tx.usable.None? {
      return Refused(ProviderAccountUnavailable);
    }
    var email, verified := tx.usable.value.email, tx.usable.value.verified;
    var created := db.CreateAccount(tx.subject, email, None, if verified then Some(tx.session.createAt) else None);
    if !created {
      return Refused(ProviderAccountUnavailable);
    }
    var linked := db.CreateProviderLink(tx.who, tx.subject);
    if !linked {
      db.Rollback(snapshot);
      return Refused(Unavailable);
    }
    if !verified {
      QueueCode(db, tx.subject, PurposeVerifyEmail, email, tx.issue);
    }
    db.CreateSession(tx.session.id, tx.subject, tx.session.token, tx.session.createAt);
    reply := Accepted;
  }

  /**
   Rotate: an unlocked read finds the session; the account and the session are locked before the token is compared.
   */
  method Rotate(db: Store, tx: Tx) returns (reply: Reply)
    requires tx.Rotate?
    modifies db
    ensures (reply, db.Contents()) == RunRotate(old(db.Contents()), tx)
  {
    var snapshot := db.Contents();
    if tx.login !in db.sessions {
      return Refused(Unauthenticated);
    }
    var session := db.sessions[tx.login];
    if session.subject !in db.accounts || db.accounts[session.subject].retiredAt.Some? || !Live(session, tx.getAt) {
      return Refused(Unauthenticated);
    }
    if session.token != tx.spent {
      db.RevokeRefreshSession(tx.login, tx.writeAt);
      return Replayed;
    }
    db.RecordRotatedRefreshToken(tx.spent, tx.login);
    var rotated := db.RotateCurrentRefreshToken(tx.next, tx.login, tx.spent, tx.writeAt);
    if !rotated {
      db.Rollback(snapshot);
      return Refused(Unauthenticated);
    }
    if !tx.signed {
      db.Rollback(snapshot);
      return Refused(Unavailable);
    }
    reply := Accepted;
  }

  method LogoutCurrent(db: Store, tx: Tx) returns (reply: Reply)
    requires tx.LogoutCurrent?
    modifies db
    ensures (reply, db.Contents()) == RunLogoutCurrent(old(db.Contents()), tx)
  {
    var changed := db.RevokeCurrentSession(tx.caller, tx.login, tx.writeAt);
    reply := if changed then Accepted else Refused(Unauthenticated);
  }

  method LogoutAll(db: Store, tx: Tx) returns (reply: Reply)
    requires tx.LogoutAll?
    modifies db
    ensures (reply, db.Contents()) == RunLogoutAll(old(db.Contents()), tx)
  {
    if !SessionActive(db.Contents(), tx.caller, tx.login, tx.lockAt) {
      return Refused(Unauthenticated);
    }
    db.RevokeAccountSessions(tx.caller, tx.writeAt);
    reply := Accepted;
  }
}
