/**
 The times, the idle lifetimes and the password hashes that one account
 transaction may write, and the issue rate of codes that follows from them.
 */
module Pacing {
  import opened Options
  import opened Clock
  import opened Schema
  import opened Statements
  import opened Consistency
  import opened Reauthentication
  import opened Transactions

  // A new challenge is the first of its account, or passed the check under the account lock before its own statement.
  ghost predicate MayIssue(db: Tables, settled: map<Subject, Time>, now: Time, s: Subject, t: Time) {
    || (forall id :: id in db.challenges ==> db.challenges[id].subject != s)
    || exists checkAt :: Timely(settled, now, s, checkAt) && checkAt <= t && CanIssueCode(db, s, checkAt)
  }

  predicate JustIssued(c: Challenge) {
    Current(c) && c.wrongGuesses == 0
  }

  ghost predicate IssuePaced(
    db: Tables, challenges': Challenges, settled: map<Subject, Time>, now: Time, locked: set<Subject>)
  {
    && (forall id :: id in challenges' && id !in db.challenges ==>
          && challenges'[id].issuedAt <= now && JustIssued(challenges'[id])
          && (challenges'[id].subject in locked || challenges'[id].subject !in db.accounts)
          && MayIssue(db, settled, now, challenges'[id].subject, challenges'[id].issuedAt))
    && (forall i, j :: i in challenges' && i !in db.challenges && j in challenges' && j !in db.challenges ==> i == j)
  }

  // A session as CreateSession inserts it.
  predicate JustOpened(s: Session) {
    && s.provenAt == Some(s.createdAt) && !Revoked(s)
    && s.idleExpiresAt == s.createdAt + IDLE_LIFETIME && s.absoluteExpiresAt == s.createdAt + ABSOLUTE_LIFETIME
  }

  ghost predicate SessionsPaced(db: Tables, sessions': Sessions, now: Time, locked: set<Subject>) {
    forall id :: id in sessions' ==>
      && (id !in db.sessions ==> JustOpened(sessions'[id]))
      && ((id in db.sessions && sessions'[id].idleExpiresAt == db.sessions[id].idleExpiresAt) ||
          (sessions'[id].idleExpiresAt <= now + IDLE_LIFETIME
            && (sessions'[id].subject in locked || sessions'[id].subject !in db.accounts)))
  }

  // Every hash of a transaction draws a fresh salt, so it equals no earlier hash.
  predicate FreshHash(tx: Tx, hashes: set<PasswordHash>) {
    match tx
    case SignUp(_, _, hash, _, _) => hash !in hashes
    case ClaimAccount(_, _, _, _, _, _, hash, _) => hash !in hashes
    case ResetPassword(_, _, _, _, _, hash, _) => hash !in hashes
    case _ => true
  }

  function HashesOf(tx: Tx): set<PasswordHash> {
    match tx
    case SignUp(_, _, hash, _, _) => {hash}
    case ClaimAccount(_, _, _, _, _, _, hash, _) => {hash}
    case ResetPassword(_, _, _, _, _, hash, _) => {hash}
    case _ => {}
  }

  ghost predicate HashPaced(accounts: Accounts, accounts': Accounts, drawn: set<PasswordHash>) {
    forall s :: s in accounts' ==>
      || (s in accounts && accounts'[s].passwordHash == accounts[s].passwordHash)
      || accounts'[s].passwordHash.None?
      || accounts'[s].passwordHash.value in drawn
  }

  ghost predicate Paced(
    db: Tables, db': Tables, settled: map<Subject, Time>, now: Time, locked: set<Subject>, drawn: set<PasswordHash>)
  {
    && IssuePaced(db, db'.challenges, settled, now, locked)
    && SessionsPaced(db, db'.sessions, now, locked)
    && HashPaced(db.accounts, db'.accounts, drawn)
  }

  // ----- The transactions -----

  lemma SameKeysArePaced(
    db: Tables, challenges': Challenges, settled: map<Subject, Time>, now: Time, locked: set<Subject>)
    requires challenges'.Keys == db.challenges.Keys
    ensures IssuePaced(db, challenges', settled, now, locked)
  {
  }

  lemma UnchangedIsPaced(db: Tables, settled: map<Subject, Time>, now: Time, locked: set<Subject>)
    ensures Paced(db, db, settled, now, locked, {})
  {
    SameKeysArePaced(db, db.challenges, settled, now, locked);
  }

  lemma OpenSessionIsPaced(
    db: Tables, settled: map<Subject, Time>, now: Time, s: Subject, session: NewSession, locked: set<Subject>)
    requires s in locked && session.createAt <= now
    ensures Paced(db, OpenSession(db, s, session), settled, now, locked, {})
  {
    SameKeysArePaced(db, db.challenges, settled, now, locked);
  }

  lemma OneMoreIsPaced(
    db: Tables, challenges': Challenges, settled: map<Subject, Time>, now: Time, locked: set<Subject>, n: ChallengeId)
    requires n in challenges' && challenges'.Keys == db.challenges.Keys + {n}
    requires challenges'[n].issuedAt <= now && JustIssued(challenges'[n])
    requires (challenges'[n].subject in locked || challenges'[n].subject !in db.accounts)
    requires MayIssue(db, settled, now, challenges'[n].subject, challenges'[n].issuedAt)
    ensures IssuePaced(db, challenges', settled, now, locked)
  {
  }

  lemma SubmittedKeys(db: Tables, s: Subject, p: Purpose, code: string, appNow: Time, guessAt: Time)
    requires s in db.accounts
    ensures var g := SubmitCode(db, s, p, code, appNow, guessAt);
      g.db.challenges.Keys == db.challenges.Keys && g.db.accounts == db.accounts && g.db.sessions == db.sessions
  {
  }

  lemma IssueCodeIsPaced(
    db: Tables, settled: map<Subject, Time>, now: Time, s: Subject, p: Purpose, n: NewCode, checkAt: Time)
    requires s in db.accounts && TimelyCode(settled, now, s, checkAt, n) && CanIssueCode(db, s, checkAt)
    ensures IssuePaced(db, IssueCode(db, s, p, n).challenges, settled, now, {s})
    ensures IssueCode(db, s, p, n).accounts == db.accounts && IssueCode(db, s, p, n).sessions == db.sessions
  {
    assert MayIssue(db, settled, now, s, n.createAt);
    OneMoreIsPaced(db, IssueCode(db, s, p, n).challenges, settled, now, {s}, n.id);
  }

  lemma SessionRequestIsPaced(db: Tables, settled: map<Subject, Time>, now: Time, tx: Tx)
    requires Fits(db, settled, now, tx) && (tx.RequestVerificationCode? || tx.RequestReauthenticationCode?)
    ensures Paced(db, After(Run(db, tx)), settled, now, {tx.caller}, {})
  {
    hide IssueCode, IssuePaced;
    UnchangedIsPaced(db, settled, now, {tx.caller});
    if tx.caller in db.accounts && CanIssueCode(db, tx.caller, tx.checkAt) {
      var p := if tx.RequestVerificationCode? then PurposeVerifyEmail else PurposeReauthenticate;
      IssueCodeIsPaced(db, settled, now, tx.caller, p, tx.issue, tx.checkAt);
    }
  }

  lemma EmailRequestIsPaced(db: Tables, settled: map<Subject, Time>, now: Time, tx: Tx)
    requires Fits(db, settled, now, tx) && (tx.RequestClaimCode? || tx.RequestResetCode?)
    ensures Paced(db, After(Run(db, tx)), settled, now, Locks(db, tx), {})
  {
    UnchangedIsPaced(db, settled, now, Locks(db, tx));
    var found := FindActive(db.accounts, tx.email);
    if found.Some? && CanIssueCode(db, found.value, tx.checkAt) {
      var p := if tx.RequestClaimCode? then PurposeClaimAccount else PurposePasswordReset;
      IssueCodeIsPaced(db, settled, now, found.value, p, tx.issue, tx.checkAt);
    }
  }

  lemma FirstCodeIsPaced(db: Tables, settled: map<Subject, Time>, now: Time, s: Subject, t: Time)
    requires Valid(db) && s !in db.accounts
    ensures MayIssue(db, settled, now, s, t)
  {
  }

  // The first code of a new account.
  lemma QueuedIsPaced(
    db: Tables, created: Tables, settled: map<Subject, Time>, now: Time, s: Subject, email: Email, n: NewCode,
    locked: set<Subject>)
    requires Valid(db) && s !in db.accounts && n.createAt <= now && created.challenges == db.challenges
    ensures var db' := QueueCode(created, s, PurposeVerifyEmail, email, n);
      IssuePaced(db, db'.challenges, settled, now, locked) && db'.accounts == created.accounts
        && db'.sessions == created.sessions
  {
    hide Valid;
    FirstCodeIsPaced(db, settled, now, s, n.createAt);
    OneMoreIsPaced(db, QueueCode(created, s, PurposeVerifyEmail, email, n).challenges, settled, now, locked, n.id);
  }

  lemma SignUpIsPaced(db: Tables, settled: map<Subject, Time>, now: Time, tx: Tx)
    requires Valid(db) && Fits(db, settled, now, tx) && tx.SignUp?
    ensures Paced(db, After(RunSignUp(db, tx)), settled, now, {}, {tx.hash})
  {
    hide Valid;
    hide QueueCode, IssuePaced;
    SameKeysArePaced(db, db.challenges, settled, now, {});
    if !exists s :: s in db.accounts && IsActive(db.accounts, s, tx.email) {
      var signedIn := OpenSession(InsertAccount(db, tx.subject, tx.email, Some(tx.hash), None), tx.subject, tx.session);
      QueuedIsPaced(db, signedIn, settled, now, tx.subject, tx.email, tx.issue, {});
    }
  }

  // A provider login issues the first code of a new account, or none.
  lemma NewProviderAccountIsPaced(
    db: Tables, settled: map<Subject, Time>, now: Time, s: Subject, usable: ProviderEmail, who: ProviderIdentity,
    session: NewSession, n: NewCode, locked: set<Subject>)
    requires Valid(db) && s !in db.accounts && session.createAt <= now && n.createAt <= now
    ensures
      var verifiedAt := if usable.verified then Some(session.createAt) else None;
      var linked := CreateProviderLink(InsertAccount(db, s, usable.email, None, verifiedAt), who, s);
      var queued := if usable.verified then linked else QueueCode(linked, s, PurposeVerifyEmail, usable.email, n);
      Paced(db, OpenSession(queued, s, session), settled, now, locked, {})
  {
    hide Valid, IssuePaced, QueueCode;
    SameKeysArePaced(db, db.challenges, settled, now, locked);
    if !usable.verified {
      var linked := CreateProviderLink(InsertAccount(db, s, usable.email, None, None), who, s);
      QueuedIsPaced(db, linked, settled, now, s, usable.email, n, locked);
    }
  }

  lemma ProviderLoginIsPaced(db: Tables, settled: map<Subject, Time>, now: Time, tx: Tx)
    requires Valid(db) && Fits(db, settled, now, tx) && tx.ProviderLogin?
    ensures Paced(db, After(RunProviderLogin(db, tx)), settled, now, Locks(db, tx), {})
  {
    UnchangedIsPaced(db, settled, now, Locks(db, tx));
    if tx.who in db.links {
      OpenSessionIsPaced(db, settled, now, db.links[tx.who], tx.session, Locks(db, tx));
    } else if tx.usable.Some? {
      NewProviderAccountIsPaced(db, settled, now, tx.subject, tx.usable.value, tx.who, tx.session, tx.issue,
        Locks(db, tx));
    }
  }

  // The other transactions add no challenge.
  ghost predicate AddsNoCode(db: Tables, db': Tables) {
    db'.challenges.Keys == db.challenges.Keys
  }

  lemma VerifyEmailIsPaced(db: Tables, now: Time, tx: Tx)
    requires tx.VerifyEmail?
    ensures var db' := After(RunVerifyEmail(db, tx));
      AddsNoCode(db, db') && db'.sessions == db.sessions && HashPaced(db.accounts, db'.accounts, {})
  {
    if tx.caller in db.accounts { SubmittedKeys(db, tx.caller, PurposeVerifyEmail, tx.code, tx.appNow, tx.guessAt); }
  }

  // A revocation leaves the expiry times alone.
  lemma RevocationIsPaced(db: Tables, s: Subject, now: Time, at: Time)
    ensures SessionsPaced(db, RevokeAccountSessions(db, s, at).sessions, now, {})
  {
  }

  lemma ClearingKeepsRows(db: Tables, s: Subject, id: ChallengeId, at: Time)
    ensures
      var replaced := DeleteReplacedChallengeDeliveries(ReplaceCurrentChallenge(db, s, PurposePasswordReset, at), s,
        PurposePasswordReset);
      var cleared := DeleteChallengeDelivery(replaced, id);
      AddsNoCode(db, cleared) && cleared.accounts == db.accounts && cleared.sessions == db.sessions
  {
  }

  lemma ChangeIsPaced(db: Tables, cleared: Tables, s: Subject, hash: PasswordHash, notice: NoticeId, at: Time)
    requires AddsNoCode(db, cleared) && cleared.accounts == db.accounts && cleared.sessions == db.sessions
    ensures var db' := QueuePasswordChangeNotice(RevokeAccountSessions(UpdatePasswordHash(cleared, s, hash), s, at),
      notice, s, at);
      AddsNoCode(db, db') && db'.sessions == RevokeAccountSessions(db, s, at).sessions
        && HashPaced(db.accounts, db'.accounts, {hash})
  {
    hide RevokeAccountSessions, HashPaced, UpdatePasswordHash, QueuePasswordChangeNotice;
    var updated := UpdatePasswordHash(cleared, s, hash);
    UpdateIsPaced(cleared, s, hash);
    RevocationReadsSessions(db, updated, s, at);
    NoticeKeepsRows(RevokeAccountSessions(updated, s, at), notice, s, at);
  }

  lemma NoticeKeepsRows(db: Tables, n: NoticeId, s: Subject, at: Time)
    ensures QueuePasswordChangeNotice(db, n, s, at) == db.(notices := QueuePasswordChangeNotice(db, n, s, at).notices)
  {
  }

  lemma UpdateIsPaced(db: Tables, s: Subject, hash: PasswordHash)
    ensures HashPaced(db.accounts, UpdatePasswordHash(db, s, hash).accounts, {hash})
    ensures UpdatePasswordHash(db, s, hash) == db.(accounts := UpdatePasswordHash(db, s, hash).accounts)
  {
  }

  lemma RevocationReadsSessions(db: Tables, other: Tables, s: Subject, at: Time)
    requires other.sessions == db.sessions
    ensures RevokeAccountSessions(other, s, at) == other.(sessions := RevokeAccountSessions(db, s, at).sessions)
  {
    var a, b := RevokeAccountSessions(db, s, at).sessions, RevokeAccountSessions(other, s, at).sessions;
    assert a.Keys == b.Keys;
    assert forall id :: id in a ==> a[id] == b[id];
  }

  lemma ApplyPasswordResetIsPaced(
    db: Tables, s: Subject, id: ChallengeId, hash: PasswordHash, notice: NoticeId, now: Time, at: Time)
    ensures var db' := ApplyPasswordReset(db, s, id, hash, notice, at);
      AddsNoCode(db, db') && db'.sessions == RevokeAccountSessions(db, s, at).sessions
        && HashPaced(db.accounts, db'.accounts, {hash})
  {
    hide ReplaceCurrentChallenge, DeleteReplacedChallengeDeliveries, DeleteChallengeDelivery;
    hide UpdatePasswordHash, RevokeAccountSessions, QueuePasswordChangeNotice, AddsNoCode, HashPaced;
    ClearingKeepsRows(db, s, id, at);
    var replaced := DeleteReplacedChallengeDeliveries(ReplaceCurrentChallenge(db, s, PurposePasswordReset, at), s,
      PurposePasswordReset);
    ChangeIsPaced(db, DeleteChallengeDelivery(replaced, id), s, hash, notice, at);
  }

  lemma ResetPasswordIsPaced(db: Tables, now: Time, tx: Tx)
    requires tx.ResetPassword?
    ensures var db' := After(RunResetPassword(db, tx));
      AddsNoCode(db, db') && SessionsPaced(db, db'.sessions, now, {}) && HashPaced(db.accounts, db'.accounts, {tx.hash})
  {
    var found := FindActive(db.accounts, tx.email);
    if found.Some? {
      var g := SubmitCode(db, found.value, PurposePasswordReset, tx.code, tx.appNow, tx.guessAt);
      SubmittedKeys(db, found.value, PurposePasswordReset, tx.code, tx.appNow, tx.guessAt);
      if g.Hit? {
        ApplyPasswordResetIsPaced(g.db, found.value, g.id, tx.hash, tx.notice, now, tx.writeAt);
        RevocationIsPaced(g.db, found.value, now, tx.writeAt);
      }
    }
  }

  lemma ReauthenticateWithCodeIsPaced(db: Tables, now: Time, tx: Tx)
    requires tx.ReauthenticateWithCode?
    ensures var db' := After(RunReauthenticateWithCode(db, tx));
      AddsNoCode(db, db') && SessionsPaced(db, db'.sessions, now, {}) && db'.accounts == db.accounts
  {
    hide SubmitCode;
    if tx.caller in db.accounts {
      SubmittedKeys(db, tx.caller, PurposeReauthenticate, tx.code, tx.observedAt, tx.guessAt);
    }
  }

  lemma ReauthenticateWithProofIsPaced(db: Tables, now: Time, tx: Tx)
    requires tx.ReauthenticateWithProof?
    ensures var db' := After(RunReauthenticateWithProof(db, tx));
      db'.challenges == db.challenges && SessionsPaced(db, db'.sessions, now, {}) && db'.accounts == db.accounts
  {
    hide SessionActive, Live, CommitProof, SessionsPaced;
    NoSessionIsPaced(db, now);
    if SessionLocked(db, tx.caller, tx.login, tx.lockAt, tx.observedAt) {
      LockedExists(db, tx.caller, tx.login, tx.lockAt);
      ProofIsPaced(db, now, tx.login, tx.observedAt, SessionDeadline(WindowOf(db.sessions[tx.login])), tx.commit);
    }
  }

  lemma LockedExists(db: Tables, s: Subject, id: SessionId, at: Time)
    ensures SessionActive(db, s, id, at) ==> id in db.sessions
  {
  }

  lemma NoSessionIsPaced(db: Tables, now: Time)
    ensures SessionsPaced(db, db.sessions, now, {})
  {
  }

  lemma ProofIsPaced(db: Tables, now: Time, id: SessionId, observedAt: Time, deadline: Time, c: CommitClock)
    requires id in db.sessions
    ensures var r := CommitProof(db, id, observedAt, deadline, c);
      r.Some? ==>
        && r.value.challenges == db.challenges && SessionsPaced(db, r.value.sessions, now, {})
        && r.value.accounts == db.accounts
  {
    hide IsOpen, CommitsBefore;
  }

  lemma RetireAndRevokeIsPaced(db: Tables, s: Subject, at: Time)
    ensures var db' := RetireAndRevoke(db, s, at);
      && AddsNoCode(db, db') && db'.sessions == RevokeAccountSessions(db, s, at).sessions
      && HashPaced(db.accounts, db'.accounts, {}) && db'.accounts.Keys == db.accounts.Keys
  {
  }

  lemma ReplaceAccountIsPaced(
    db: Tables, s: Subject, subject: Subject, email: Email, hash: PasswordHash, session: NewSession, now: Time,
    at: Time)
    requires session.createAt <= now && subject !in db.accounts
    ensures
      var created := InsertAccount(RetireAndRevoke(db, s, at), subject, email, Some(hash), None);
      var db' := OpenSession(MarkEmailVerified(created, subject, at), subject, session);
      AddsNoCode(db, db') && SessionsPaced(db, db'.sessions, now, {}) && HashPaced(db.accounts, db'.accounts, {hash})
  {
    RetireAndRevokeIsPaced(db, s, at);
    RevocationIsPaced(db, s, now, at);
  }

  lemma ClaimIsPaced(db: Tables, settled: map<Subject, Time>, now: Time, tx: Tx)
    requires Fits(db, settled, now, tx) && tx.ClaimAccount?
    ensures var db' := After(RunClaimAccount(db, tx));
      AddsNoCode(db, db') && SessionsPaced(db, db'.sessions, now, {}) && HashPaced(db.accounts, db'.accounts, {tx.hash})
  {
    var found := FindActive(db.accounts, tx.email);
    if found.Some? {
      var g := SubmitCode(db, found.value, PurposeClaimAccount, tx.code, tx.appNow, tx.guessAt);
      SubmittedKeys(db, found.value, PurposeClaimAccount, tx.code, tx.appNow, tx.guessAt);
      ReplaceAccountIsPaced(g.db, found.value, tx.subject, tx.email, tx.hash, tx.session, now, tx.writeAt);
    }
  }

  lemma IssueLoginIsPaced(db: Tables, settled: map<Subject, Time>, now: Time, tx: Tx)
    requires Fits(db, settled, now, tx) && tx.IssueLogin?
    ensures var db' := After(RunIssueLogin(db, tx));
      db'.challenges == db.challenges && SessionsPaced(db, db'.sessions, now, {tx.caller})
        && db'.accounts == db.accounts
  {
  }

  lemma RotationIsPaced(
    db: Tables, now: Time, next: TokenHash, id: SessionId, spent: TokenHash, at: Time, locked: set<Subject>)
    requires id in db.sessions && db.sessions[id].subject in locked && at <= now
    ensures SessionsPaced(db,
      RotateCurrentRefreshToken(RecordRotatedRefreshToken(db, spent, id), next, id, spent, at).sessions, now, locked)
    ensures SessionsPaced(db, RevokeRefreshSession(db, id, at).sessions, now, locked)
  {
  }

  lemma RotateIsPaced(db: Tables, settled: map<Subject, Time>, now: Time, tx: Tx)
    requires Fits(db, settled, now, tx) && tx.Rotate?
    ensures var db' := After(RunRotate(db, tx));
      db'.challenges == db.challenges && SessionsPaced(db, db'.sessions, now, Locks(db, tx))
        && db'.accounts == db.accounts
  {
    if tx.login in db.sessions {
      RotationIsPaced(db, now, tx.next, tx.login, tx.spent, tx.writeAt, Locks(db, tx));
    }
  }

  lemma LogoutIsPaced(db: Tables, now: Time, tx: Tx)
    requires tx.LogoutCurrent? || tx.LogoutAll?
    ensures var db' := if tx.LogoutCurrent? then After(RunLogoutCurrent(db, tx)) else After(RunLogoutAll(db, tx));
      db'.challenges == db.challenges && SessionsPaced(db, db'.sessions, now, {}) && db'.accounts == db.accounts
  {
  }

  lemma OtherTransactionIsPaced(db: Tables, settled: map<Subject, Time>, now: Time, tx: Tx)
    requires Fits(db, settled, now, tx)
    requires !tx.SignUp? && !tx.ProviderLogin?
    requires !tx.RequestVerificationCode? && !tx.RequestClaimCode? && !tx.RequestResetCode?
    requires !tx.RequestReauthenticationCode?
    ensures Paced(db, After(Run(db, tx)), settled, now, Locks(db, tx), HashesOf(tx))
  {
    if tx.ClaimAccount? { ClaimIsPaced(db, settled, now, tx); }
    if tx.VerifyEmail? { VerifyEmailIsPaced(db, now, tx); }
    if tx.ResetPassword? { ResetPasswordIsPaced(db, now, tx); }
    if tx.ReauthenticateWithCode? { ReauthenticateWithCodeIsPaced(db, now, tx); }
    if tx.ReauthenticateWithProof? { ReauthenticateWithProofIsPaced(db, now, tx); }
    if tx.IssueLogin? { IssueLoginIsPaced(db, settled, now, tx); }
    if tx.Rotate? { RotateIsPaced(db, settled, now, tx); }
    if tx.LogoutCurrent? || tx.LogoutAll? { LogoutIsPaced(db, now, tx); }
    SameKeysArePaced(db, After(Run(db, tx)).challenges, settled, now, Locks(db, tx));
  }

  lemma TransactionIsPaced(db: Tables, settled: map<Subject, Time>, now: Time, tx: Tx)
    requires Valid(db) && Fits(db, settled, now, tx)
    ensures Paced(db, After(Run(db, tx)), settled, now, Locks(db, tx), HashesOf(tx))
  {
    if tx.SignUp? {
      SignUpIsPaced(db, settled, now, tx);
    } else if tx.ProviderLogin? {
      ProviderLoginIsPaced(db, settled, now, tx);
    } else if tx.RequestVerificationCode? || tx.RequestReauthenticationCode? {
      SessionRequestIsPaced(db, settled, now, tx);
    } else if tx.RequestClaimCode? || tx.RequestResetCode? {
      EmailRequestIsPaced(db, settled, now, tx);
    } else {
      OtherTransactionIsPaced(db, settled, now, tx);
    }
  }

  // ----- The issue rate -----

  function IssuedInHour(challenges: Challenges, s: Subject, from: Time): set<ChallengeId> {
    set id | id in challenges && challenges[id].subject == s && from <= challenges[id].issuedAt < from + HOUR
  }

  ghost predicate AtMostFiveAnHour(challenges: Challenges) {
    forall s, from :: |IssuedInHour(challenges, s, from)| <= 5
  }

  predicate Apart(c: Challenge, d: Challenge) {
    c.subject == d.subject ==> c.issuedAt + MINUTE <= d.issuedAt || d.issuedAt + MINUTE <= c.issuedAt
  }

  ghost predicate AMinuteApart(challenges: Challenges) {
    forall i, j :: i in challenges && j in challenges && i != j ==> Apart(challenges[i], challenges[j])
  }

  ghost predicate IssuedBefore(challenges: Challenges, settled: map<Subject, Time>) {
    forall id :: id in challenges ==>
      challenges[id].subject in settled && challenges[id].issuedAt <= settled[challenges[id].subject]
  }

  lemma SubsetIsSmaller(a: set<ChallengeId>, b: set<ChallengeId>)
    requires a <= b
    ensures |a| <= |b|
  {
    if a != b {
      assert b == a + (b - a);
    }
  }

  // What the check saw still holds when the challenge is inserted: no challenge of the account is younger than the
  // check.
  lemma CheckHolds(db: Tables, settled: map<Subject, Time>, now: Time, s: Subject, t: Time)
    requires MayIssue(db, settled, now, s, t) && IssuedBefore(db.challenges, settled)
    ensures forall from :: from <= t < from + HOUR ==> |IssuedInHour(db.challenges, s, from)| < 5
    ensures forall id :: id in db.challenges && db.challenges[id].subject == s ==>
      db.challenges[id].issuedAt + MINUTE <= t
  {
    if id :| id in db.challenges && db.challenges[id].subject == s {
      var checkAt :| Timely(settled, now, s, checkAt) && checkAt <= t && CanIssueCode(db, s, checkAt);
      forall from | from <= t < from + HOUR ensures |IssuedInHour(db.challenges, s, from)| < 5 {
        SubsetIsSmaller(IssuedInHour(db.challenges, s, from), IssuedAfter(db, s, checkAt - HOUR));
      }
      forall i | i in db.challenges && db.challenges[i].subject == s ensures db.challenges[i].issuedAt + MINUTE <= t {
        assert i in IssuedAfter(db, s, checkAt - HOUR) || db.challenges[i].issuedAt <= checkAt - HOUR;
      }
    } else {
      forall from ensures IssuedInHour(db.challenges, s, from) == {} {
        assert forall i :: i in db.challenges ==> db.challenges[i].subject != s;
      }
    }
  }

  // Advancing keeps the subject and issue time of every challenge.
  lemma HourGrowsBy(challenges: Challenges, challenges': Challenges, s: Subject, from: Time, n: ChallengeId)
    requires ChallengesAdvance(challenges, challenges') && (forall i :: i in challenges' ==> i in challenges || i == n)
    ensures IssuedInHour(challenges', s, from) <= IssuedInHour(challenges, s, from) + {n}
    ensures n !in challenges' || n in challenges ==>
      IssuedInHour(challenges', s, from) <= IssuedInHour(challenges, s, from)
  {
    forall i | i in IssuedInHour(challenges', s, from) ensures i in IssuedInHour(challenges, s, from)
      || (i == n && n !in challenges) {
      assert i in challenges';
    }
  }

  lemma PacedKeepsHour(
    db: Tables, challenges': Challenges, settled: map<Subject, Time>, now: Time, locked: set<Subject>, s: Subject,
    from: Time)
    requires IssuePaced(db, challenges', settled, now, locked) && ChallengesAdvance(db.challenges, challenges')
    requires |IssuedInHour(db.challenges, s, from)| <= 5 && IssuedBefore(db.challenges, settled)
    ensures |IssuedInHour(challenges', s, from)| <= 5
  {
    var before, after := IssuedInHour(db.challenges, s, from), IssuedInHour(challenges', s, from);
    if n :| n in challenges' && n !in db.challenges && n in after {
      HourGrowsBy(db.challenges, challenges', s, from, n);
      CheckHolds(db, settled, now, s, challenges'[n].issuedAt);
      SubsetIsSmaller(after, before + {n});
    } else {
      forall i | i in after ensures i in before {
        assert i in challenges';
      }
      SubsetIsSmaller(after, before);
    }
  }

  lemma PacedStaysApart(
    db: Tables, challenges': Challenges, settled: map<Subject, Time>, now: Time, locked: set<Subject>,
    i: ChallengeId, j: ChallengeId)
    requires IssuePaced(db, challenges', settled, now, locked) && ChallengesAdvance(db.challenges, challenges')
    requires IssuedBefore(db.challenges, settled) && i in challenges' && j in challenges' && i != j
    requires i in db.challenges && j in db.challenges ==> Apart(db.challenges[i], db.challenges[j])
    ensures Apart(challenges'[i], challenges'[j])
  {
    if i !in db.challenges {
      CheckHolds(db, settled, now, challenges'[i].subject, challenges'[i].issuedAt);
    } else if j !in db.challenges {
      CheckHolds(db, settled, now, challenges'[j].subject, challenges'[j].issuedAt);
    }
  }

  /** At most one more challenge, checked before it was issued, keeps the hourly bound. */
  lemma PacedKeepsHourlyBound(
    db: Tables, challenges': Challenges, settled: map<Subject, Time>, now: Time, locked: set<Subject>)
    requires IssuePaced(db, challenges', settled, now, locked) && ChallengesAdvance(db.challenges, challenges')
    requires AtMostFiveAnHour(db.challenges) && IssuedBefore(db.challenges, settled)
    ensures AtMostFiveAnHour(challenges')
  {
    forall s, from ensures |IssuedInHour(challenges', s, from)| <= 5 {
      PacedKeepsHour(db, challenges', settled, now, locked, s, from);
    }
  }

  /** ... and the distance of a minute. */
  lemma PacedKeepsDistance(
    db: Tables, challenges': Challenges, settled: map<Subject, Time>, now: Time, locked: set<Subject>)
    requires IssuePaced(db, challenges', settled, now, locked) && ChallengesAdvance(db.challenges, challenges')
    requires AMinuteApart(db.challenges) && IssuedBefore(db.challenges, settled)
    ensures AMinuteApart(challenges')
  {
    hide IssuePaced, ChallengesAdvance, IssuedBefore, Apart;
    forall i, j | i in challenges' && j in challenges' && i != j ensures Apart(challenges'[i], challenges'[j]) {
      PacedStaysApart(db, challenges', settled, now, locked, i, j);
    }
  }
}
