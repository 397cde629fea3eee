/**
 The account transactions of the Identity service. Each is a function of the
 tables at its row locks, its inputs, the fresh random values that it draws, the
 timestamps of its statements and the application clock. It gives the reply to
 the client and the tables after COMMIT; a refused request rolls back.
 */
module Transactions {
  import opened Options
  import opened Clock
  import opened Schema
  import opened Statements
  import opened Reauthentication
  import opened ChallengeCheck

  datatype Error =
    | Unauthenticated
    | RateLimited
    | AlreadyVerified
    | EmailUnverified
    | AccountExists
    | InvalidCredentials
    | ProviderAccountUnavailable
    | Unavailable

  datatype Reply =
    | Accepted
    | InvalidCode
    | Replayed
    | Refused(error: Error)

  // A fresh challenge with its outbox event, and the times of the statements that write them.
  datatype NewCode = NewCode(id: ChallengeId, code: string, event: EventId, replaceAt: Time, createAt: Time,
    queueAt: Time)

  datatype NewSession = NewSession(id: SessionId, token: TokenHash, createAt: Time)

  // The usable email of a provider result, and whether the account starts verified.
  datatype ProviderEmail = ProviderEmail(email: Email, verified: bool)

  datatype Tx =
    | SignUp(subject: Subject, email: Email, hash: PasswordHash, session: NewSession, issue: NewCode)
    | RequestVerificationCode(caller: Subject, login: SessionId, lockAt: Time, checkAt: Time, issue: NewCode)
    | RequestClaimCode(email: Email, checkAt: Time, issue: NewCode)
    | RequestResetCode(email: Email, checkAt: Time, issue: NewCode)
    | RequestReauthenticationCode(caller: Subject, login: SessionId, lockAt: Time, observedAt: Time, checkAt: Time,
      issue: NewCode, commit: CommitClock)
    | VerifyEmail(caller: Subject, login: SessionId, code: string, lockAt: Time, appNow: Time, guessAt: Time,
      writeAt: Time)
    | ClaimAccount(email: Email, code: string, appNow: Time, guessAt: Time, writeAt: Time, subject: Subject,
      hash: PasswordHash, session: NewSession)
    | ResetPassword(email: Email, code: string, appNow: Time, guessAt: Time, writeAt: Time, hash: PasswordHash,
      notice: NoticeId)
    | ReauthenticateWithCode(caller: Subject, login: SessionId, code: string, lockAt: Time, observedAt: Time,
      guessAt: Time, windowAt: Time, commit: CommitClock)
    | ReauthenticateWithProof(caller: Subject, login: SessionId, lockAt: Time, observedAt: Time, commit: CommitClock)
    | IssueLogin(caller: Subject, foundHash: PasswordHash, session: NewSession)
    | ProviderLogin(who: ProviderIdentity, usable: Option<ProviderEmail>, subject: Subject, session: NewSession,
      issue: NewCode)
    | Rotate(login: SessionId, spent: TokenHash, next: TokenHash, getAt: Time, writeAt: Time, signed: bool)
    | LogoutCurrent(caller: Subject, login: SessionId, writeAt: Time)
    | LogoutAll(caller: Subject, login: SessionId, lockAt: Time, writeAt: Time)

  // ----- Shared parts -----

  function OpenSession(db: Tables, s: Subject, session: NewSession): Tables {
    InsertSession(db, session.id, s, session.token, session.createAt)
  }

  /** CreateChallenge, StoreDelivery and CreateOutboxEvent. */
  function QueueCode(db: Tables, s: Subject, p: Purpose, email: Email, n: NewCode): Tables {
    var created := CreateChallenge(db, n.id, s, p, email, n.code, n.createAt);
    var stored := StoreChallengeDelivery(created, n.id, Sealed(n.id, p, s, email, n.code));
    CreateOutboxEvent(stored, n.event, n.id, n.queueAt)
  }

  /** Only the reset and re-authentication paths delete the material that they replace. */
  function ReplaceCode(db: Tables, s: Subject, p: Purpose, now: Time): Tables {
    var replaced := ReplaceCurrentChallenge(db, s, p, now);
    if NeedsVerifiedEmail(p) then DeleteReplacedChallengeDeliveries(replaced, s, p) else replaced
  }

  function IssueCode(db: Tables, s: Subject, p: Purpose, n: NewCode): Tables
    requires s in db.accounts
  {
    QueueCode(ReplaceCode(db, s, p, n.replaceAt), s, p, db.accounts[s].email, n)
  }

  /** What a submitted code does: nothing, one wrong guess, or the consumption of the challenge. */
  datatype Guess = Missed(db: Tables) | Hit(id: ChallengeId, db: Tables)

  ghost function SubmitCode(db: Tables, s: Subject, p: Purpose, code: string, appNow: Time, guessAt: Time): Guess
    requires s in db.accounts
  {
    if !ValidVerificationCode(code) then Missed(db)
    else
      match FindCurrent(db.challenges, s, p)
      case None => Missed(db)
      case Some(id) =>
        match Check(db.challenges[id], s, db.accounts[s].email, p, code, appNow)
        case CodeRejected => Missed(db)
        case CodeWrongGuess => Missed(IncrementChallengeWrongGuess(db, id, guessAt))
        case CodeAccepted =>
          if Open(db, id, guessAt) then Hit(id, ConsumeCurrentChallenge(db, id, guessAt)) else Missed(db)
  }

  function WindowOf(s: Session): Window {
    Window(s.provenAt, s.idleExpiresAt, s.absoluteExpiresAt)
  }

  // LockSessionForReauthentication: the row locks, then the wall clock.
  predicate SessionLocked(db: Tables, s: Subject, id: SessionId, lockAt: Time, observedAt: Time) {
    SessionActive(db, s, id, lockAt) && Live(db.sessions[id], observedAt)
  }

  /** openWindow and COMMIT: stamps a closed window and keeps an open one. None when the deadline check refuses. */
  function CommitProof(db: Tables, id: SessionId, observedAt: Time, deadline: Time, c: CommitClock): Option<Tables>
    requires id in db.sessions
  {
    var stamps := !IsOpen(WindowOf(db.sessions[id]), observedAt);
    if !CommitsBefore(c, deadline, stamps) then None
    else if stamps then Some(StampProof(db, id, c.stampedAt)) else Some(db)
  }

  // ----- The transactions -----

  function RunSignUp(db: Tables, tx: Tx): (Reply, Tables)
    requires tx.SignUp?
  {
    if exists s :: s in db.accounts && IsActive(db.accounts, s, tx.email) then (Refused(AccountExists), db)
    else
      var created := InsertAccount(db, tx.subject, tx.email, Some(tx.hash), None);
      (Accepted, QueueCode(OpenSession(created, tx.subject, tx.session), tx.subject, PurposeVerifyEmail, tx.email,
        tx.issue))
  }

  function RunRequestVerificationCode(db: Tables, tx: Tx): (Reply, Tables)
    requires tx.RequestVerificationCode?
  {
    if !SessionActive(db, tx.caller, tx.login, tx.lockAt) then (Refused(Unauthenticated), db)
    else if Verified(db.accounts[tx.caller]) then (Refused(AlreadyVerified), db)
    else if !CanIssueCode(db, tx.caller, tx.checkAt) then (Refused(RateLimited), db)
    else (Accepted, IssueCode(db, tx.caller, PurposeVerifyEmail, tx.issue))
  }

  ghost function RunRequestClaimCode(db: Tables, tx: Tx): (Reply, Tables)
    requires tx.RequestClaimCode?
  {
    match FindActive(db.accounts, tx.email)
    case None => (Accepted, db)
    case Some(s) =>
      if Verified(db.accounts[s]) || !CanIssueCode(db, s, tx.checkAt) then (Accepted, db)
      else (Accepted, IssueCode(db, s, PurposeClaimAccount, tx.issue))
  }

  predicate CanRecover(a: Account) {
    Verified(a) && a.passwordHash.Some?
  }

  ghost function RunRequestResetCode(db: Tables, tx: Tx): (Reply, Tables)
    requires tx.RequestResetCode?
  {
    match FindActive(db.accounts, tx.email)
    case None => (Accepted, db)
    case Some(s) =>
      if !CanRecover(db.accounts[s]) || !CanIssueCode(db, s, tx.checkAt) then (Accepted, db)
      else (Accepted, IssueCode(db, s, PurposePasswordReset, tx.issue))
  }

  ghost function RunRequestReauthenticationCode(db: Tables, tx: Tx): (Reply, Tables)
    requires tx.RequestReauthenticationCode?
  {
    if !SessionLocked(db, tx.caller, tx.login, tx.lockAt, tx.observedAt) then (Refused(Unauthenticated), db)
    else if !Verified(db.accounts[tx.caller]) then (Refused(EmailUnverified), db)
    else if ReauthenticationIssuedAfter(db, tx.caller, tx.observedAt - MINUTE) then (Accepted, db)
    else if !CanIssueCode(db, tx.caller, tx.checkAt) then (Refused(RateLimited), db)
    else if !CommitsBefore(tx.commit, SessionDeadline(WindowOf(db.sessions[tx.login])), false)
      then (Refused(Unauthenticated), db)
    else (Accepted, IssueCode(db, tx.caller, PurposeReauthenticate, tx.issue))
  }

  ghost function RunVerifyEmail(db: Tables, tx: Tx): (Reply, Tables)
    requires tx.VerifyEmail?
  {
    if !SessionActive(db, tx.caller, tx.login, tx.lockAt) then (Refused(Unauthenticated), db)
    else if !ValidVerificationCode(tx.code) then (InvalidCode, db)
    else if Verified(db.accounts[tx.caller]) then (Accepted, db)
    else
      match SubmitCode(db, tx.caller, PurposeVerifyEmail, tx.code, tx.appNow, tx.guessAt)
      case Missed(guessed) => (InvalidCode, guessed)
      case Hit(_, consumed) => (Accepted, MarkEmailVerified(consumed, tx.caller, tx.writeAt))
  }

  /** RetireAndRevokeAccount */
  function RetireAndRevoke(db: Tables, s: Subject, now: Time): Tables {
    var signedOut := RevokeAccountSessions(db, s, now);
    var revoked := RevokeAccountChallenges(signedOut, s, now);
    RetireUnverifiedAccount(DeleteAccountChallengeDeliveries(revoked, s), s, now)
  }

  ghost function RunClaimAccount(db: Tables, tx: Tx): (Reply, Tables)
    requires tx.ClaimAccount?
  {
    match FindActive(db.accounts, tx.email)
    case None => (InvalidCode, db)
    case Some(s) =>
      if Verified(db.accounts[s]) then (InvalidCode, db)
      else
        match SubmitCode(db, s, PurposeClaimAccount, tx.code, tx.appNow, tx.guessAt)
        case Missed(guessed) => (InvalidCode, guessed)
        case Hit(_, consumed) =>
          var retired := RetireAndRevoke(consumed, s, tx.writeAt);
          var created := InsertAccount(retired, tx.subject, tx.email, Some(tx.hash), None);
          (Accepted, OpenSession(MarkEmailVerified(created, tx.subject, tx.writeAt), tx.subject, tx.session))
  }

  /** applyPasswordReset */
  function ApplyPasswordReset(
    db: Tables, s: Subject, id: ChallengeId, hash: PasswordHash, notice: NoticeId, now: Time): Tables
  {
    var replaced := DeleteReplacedChallengeDeliveries(ReplaceCurrentChallenge(db, s, PurposePasswordReset, now), s,
      PurposePasswordReset);
    var updated := UpdatePasswordHash(DeleteChallengeDelivery(replaced, id), s, hash);
    QueuePasswordChangeNotice(RevokeAccountSessions(updated, s, now), notice, s, now)
  }

  ghost function RunResetPassword(db: Tables, tx: Tx): (Reply, Tables)
    requires tx.ResetPassword?
  {
    match FindActive(db.accounts, tx.email)
    case None => (InvalidCode, db)
    case Some(s) =>
      if !CanRecover(db.accounts[s]) then (InvalidCode, db)
      else
        match SubmitCode(db, s, PurposePasswordReset, tx.code, tx.appNow, tx.guessAt)
        case Missed(guessed) => (InvalidCode, guessed)
        case Hit(id, consumed) => (Accepted, ApplyPasswordReset(consumed, s, id, tx.hash, tx.notice, tx.writeAt))
  }

  ghost function RunReauthenticateWithCode(db: Tables, tx: Tx): (Reply, Tables)
    requires tx.ReauthenticateWithCode?
  {
    if !SessionLocked(db, tx.caller, tx.login, tx.lockAt, tx.observedAt) then (Refused(Unauthenticated), db)
    else if !Verified(db.accounts[tx.caller]) then (InvalidCode, db)
    else
      match SubmitCode(db, tx.caller, PurposeReauthenticate, tx.code, tx.observedAt, tx.guessAt)
      case Missed(guessed) => (InvalidCode, guessed)
      case Hit(id, consumed) =>
        if !Live(db.sessions[tx.login], tx.windowAt) then (Refused(Unauthenticated), db) else
        var deadline := Min(SessionDeadline(WindowOf(db.sessions[tx.login])), db.challenges[id].expiresAt);
        match CommitProof(consumed, tx.login, tx.windowAt, deadline, tx.commit)
        // The refused COMMIT is the code's fault when the code expires before the session.
        case None =>
          (if db.challenges[id].expiresAt < SessionDeadline(WindowOf(db.sessions[tx.login]))
            then InvalidCode else Refused(Unauthenticated), db)
        case Some(proven) => (Accepted, proven)
  }

  /** Re-authentication with the password or with a linked provider, after the proof succeeded. */
  function RunReauthenticateWithProof(db: Tables, tx: Tx): (Reply, Tables)
    requires tx.ReauthenticateWithProof?
  {
    if !SessionLocked(db, tx.caller, tx.login, tx.lockAt, tx.observedAt) then (Refused(Unauthenticated), db)
    else
      match CommitProof(db, tx.login, tx.observedAt, SessionDeadline(WindowOf(db.sessions[tx.login])), tx.commit)
      case None => (Refused(Unauthenticated), db)
      case Some(proven) => (Accepted, proven)
  }

  function RunIssueLogin(db: Tables, tx: Tx): (Reply, Tables)
    requires tx.IssueLogin?
  {
    if tx.caller !in db.accounts || Retired(db.accounts[tx.caller])
      || db.accounts[tx.caller].passwordHash != Some(tx.foundHash)
    then (Refused(InvalidCredentials), db)
    else (Accepted, OpenSession(db, tx.caller, tx.session))
  }

  function RunProviderLogin(db: Tables, tx: Tx): (Reply, Tables)
    requires tx.ProviderLogin?
  {
    if tx.who in db.links && db.links[tx.who] in db.accounts && !Retired(db.accounts[db.links[tx.who]])
    then (Accepted, OpenSession(db, db.links[tx.who], tx.session))
    else if tx.usable.None? then (Refused(ProviderAccountUnavailable), db)
    else if exists s ::
      s in db.accounts && IsActive(db.accounts, s, tx.usable.value.email) then (Refused(ProviderAccountUnavailable), db)
    // The primary key of identity_provider_links refuses a second link of the identity.
    else if tx.who in db.links then (Refused(Unavailable), db)
    else
      var email := tx.usable.value.email;
      var verifiedAt := if tx.usable.value.verified then Some(tx.session.createAt) else None;
      var linked := CreateProviderLink(InsertAccount(db, tx.subject, email, None, verifiedAt), tx.who, tx.subject);
      var queued := if tx.usable.value.verified
        then linked else QueueCode(linked, tx.subject, PurposeVerifyEmail, email, tx.issue);
      (Accepted, OpenSession(queued, tx.subject, tx.session))
  }

  function RunRotate(db: Tables, tx: Tx): (Reply, Tables)
    requires tx.Rotate?
  {
    if tx.login !in db.sessions then (Refused(Unauthenticated), db)
    else
      var s := db.sessions[tx.login];
      if s.subject !in db.accounts || Retired(db.accounts[s.subject]) then (Refused(Unauthenticated), db)
      else if !Live(s, tx.getAt) then (Refused(Unauthenticated), db)
      else if s.token != tx.spent then (Replayed, RevokeRefreshSession(db, tx.login, tx.writeAt))
      else if !CanRotate(db, tx.login, tx.spent, tx.writeAt) then (Refused(Unauthenticated), db)
      // The callback that signs the access token runs before COMMIT.
      else if !tx.signed then (Refused(Unavailable), db)
      else (Accepted,
        RotateCurrentRefreshToken(RecordRotatedRefreshToken(db, tx.spent, tx.login), tx.next, tx.login, tx.spent,
          tx.writeAt))
  }

  function RunLogoutCurrent(db: Tables, tx: Tx): (Reply, Tables)
    requires tx.LogoutCurrent?
  {
    if !SessionActive(db, tx.caller, tx.login, tx.writeAt) then (Refused(Unauthenticated), db)
    else (Accepted, RevokeCurrentSession(db, tx.caller, tx.login, tx.writeAt))
  }

  function RunLogoutAll(db: Tables, tx: Tx): (Reply, Tables)
    requires tx.LogoutAll?
  {
    if !SessionActive(db, tx.caller, tx.login, tx.lockAt) then (Refused(Unauthenticated), db)
    else (Accepted, RevokeAccountSessions(db, tx.caller, tx.writeAt))
  }

  ghost function Run(db: Tables, tx: Tx): (Reply, Tables) {
    match tx
    case SignUp(_, _, _, _, _) => RunSignUp(db, tx)
    case RequestVerificationCode(_, _, _, _, _) => RunRequestVerificationCode(db, tx)
    case RequestClaimCode(_, _, _) => RunRequestClaimCode(db, tx)
    case RequestResetCode(_, _, _) => RunRequestResetCode(db, tx)
    case RequestReauthenticationCode(_, _, _, _, _, _, _) => RunRequestReauthenticationCode(db, tx)
    case VerifyEmail(_, _, _, _, _, _, _) => RunVerifyEmail(db, tx)
    case ClaimAccount(_, _, _, _, _, _, _, _) => RunClaimAccount(db, tx)
    case ResetPassword(_, _, _, _, _, _, _) => RunResetPassword(db, tx)
    case ReauthenticateWithCode(_, _, _, _, _, _, _, _) => RunReauthenticateWithCode(db, tx)
    case ReauthenticateWithProof(_, _, _, _, _) => RunReauthenticateWithProof(db, tx)
    case IssueLogin(_, _, _) => RunIssueLogin(db, tx)
    case ProviderLogin(_, _, _, _, _) => RunProviderLogin(db, tx)
    case Rotate(_, _, _, _, _, _) => RunRotate(db, tx)
    case LogoutCurrent(_, _, _) => RunLogoutCurrent(db, tx)
    case LogoutAll(_, _, _, _) => RunLogoutAll(db, tx)
  }

  function ReplyOf(r: (Reply, Tables)): Reply { r.0 }

  function After(r: (Reply, Tables)): Tables { r.1 }

  /** The account rows that the transaction locks before it reads them. */
  ghost function Locks(db: Tables, tx: Tx): set<Subject> {
    match tx
    case SignUp(_, _, _, _, _) => {}
    case RequestVerificationCode(s, _, _, _, _) => {s}
    case RequestClaimCode(email, _, _) => Locked(FindActive(db.accounts, email))
    case RequestResetCode(email, _, _) => Locked(FindActive(db.accounts, email))
    case RequestReauthenticationCode(s, _, _, _, _, _, _) => {s}
    case VerifyEmail(s, _, _, _, _, _, _) => {s}
    case ClaimAccount(email, _, _, _, _, _, _, _) => Locked(FindActive(db.accounts, email))
    case ResetPassword(email, _, _, _, _, _, _) => Locked(FindActive(db.accounts, email))
    case ReauthenticateWithCode(s, _, _, _, _, _, _, _) => {s}
    case ReauthenticateWithProof(s, _, _, _, _) => {s}
    case IssueLogin(s, _, _) => {s}
    case ProviderLogin(who, _, _, _, _) => if who in db.links then {db.links[who]} else {}
    case Rotate(id, _, _, _, _, _) => if id in db.sessions then {db.sessions[id].subject} else {}
    // Signing out of the current session updates the session row without the account lock.
    case LogoutCurrent(_, _, _) => {}
    case LogoutAll(s, _, _, _) => {s}
  }

  // ----- Fresh values and timestamps -----

  predicate FreshCode(db: Tables, n: NewCode) {
    n.id !in db.challenges && n.event !in db.events && ValidVerificationCode(n.code)
  }

  predicate FreshSession(db: Tables, n: NewSession) {
    n.id !in db.sessions && TokenUnused(db, n.token)
  }

  // Each account row is locked by one transaction at a time. A statement that runs under the lock has a timestamp
  // between the last COMMIT that released the lock, `settled`, and the present.
  predicate Timely(settled: map<Subject, Time>, now: Time, s: Subject, t: Time) {
    s in settled && settled[s] <= t <= now
  }

  predicate TimelyCode(settled: map<Subject, Time>, now: Time, s: Subject, checkAt: Time, n: NewCode) {
    Timely(settled, now, s, checkAt) && checkAt <= n.createAt <= now
  }

  /** The random values of the transaction are unused, and its statements ran in order under the locks. */
  ghost predicate Fits(db: Tables, settled: map<Subject, Time>, now: Time, tx: Tx) {
    match tx
    case SignUp(s, _, _, session, n) =>
      s !in db.accounts && FreshSession(db, session) && session.createAt <= now && FreshCode(db, n) && n.createAt <= now
    case RequestVerificationCode(s, _, _, checkAt, n) =>
      FreshCode(db, n) && (s in db.accounts ==> TimelyCode(settled, now, s, checkAt, n))
    case RequestClaimCode(email, checkAt, n) =>
      FreshCode(db, n) && forall s :: IsActive(db.accounts, s, email) ==> TimelyCode(settled, now, s, checkAt, n)
    case RequestResetCode(email, checkAt, n) =>
      FreshCode(db, n) && forall s :: IsActive(db.accounts, s, email) ==> TimelyCode(settled, now, s, checkAt, n)
    case RequestReauthenticationCode(s, _, _, _, checkAt, n, _) =>
      FreshCode(db, n) && (s in db.accounts ==> TimelyCode(settled, now, s, checkAt, n))
    case VerifyEmail(_, _, _, _, _, guessAt, writeAt) => guessAt <= now && writeAt <= now
    case ClaimAccount(_, _, _, guessAt, writeAt, s, _, session) =>
      guessAt <= now && writeAt <= now && s !in db.accounts && FreshSession(db, session) && session.createAt <= now
    case ResetPassword(_, _, _, guessAt, writeAt, _, n) => guessAt <= now && writeAt <= now && n !in db.notices
    case ReauthenticateWithCode(_, _, _, _, _, guessAt, _, commit) =>
      guessAt <= now && Ticks(commit) && commit.recheckedAt <= now
    case ReauthenticateWithProof(_, _, _, _, commit) => Ticks(commit) && commit.recheckedAt <= now
    case IssueLogin(s, _, session) => FreshSession(db, session) && session.createAt <= now
    case ProviderLogin(_, _, s, session, n) =>
      s !in db.accounts && FreshSession(db, session) && session.createAt <= now && FreshCode(db, n) && n.createAt <= now
    // An unlocked read found the session by the presented token; tokens never move to another session.
    case Rotate(id, spent, next, _, writeAt, _) =>
      TokenOf(db.sessions, db.rotated, id, spent) && TokenUnused(db, next) && writeAt <= now
        && (id in db.sessions ==> Timely(settled, now, db.sessions[id].subject, writeAt))
    case LogoutCurrent(_, _, writeAt) => writeAt <= now
    case LogoutAll(_, _, _, writeAt) => writeAt <= now
  }

  function Locked(found: Option<Subject>): set<Subject> {
    match found
    case None => {}
    case Some(s) => {s}
  }
}
