/** The events that one account transaction queues, and their times. */
module QueueTimes {
  import opened Options
  import opened Clock
  import opened Schema
  import opened Statements
  import opened Consistency
  import opened Reauthentication
  import opened Transactions

  /** The time at which the transaction queues an event, if it issues a code. */
  function QueueTime(tx: Tx): Option<Time> {
    match tx
    case SignUp(_, _, _, _, n) => Some(n.queueAt)
    case RequestVerificationCode(_, _, _, _, n) => Some(n.queueAt)
    case RequestClaimCode(_, _, n) => Some(n.queueAt)
    case RequestResetCode(_, _, n) => Some(n.queueAt)
    case RequestReauthenticationCode(_, _, _, _, _, n, _) => Some(n.queueAt)
    case ProviderLogin(_, _, _, _, n) => Some(n.queueAt)
    case _ => None
  }

  // Every new event is due from the time at which it was queued.
  ghost predicate QueuedAt(events: Events, events': Events, t: Option<Time>) {
    forall e :: e in events' && e !in events ==>
      t.Some? && events'[e].createdAt == t.value && events'[e].nextAttemptAt == t.value
  }

  lemma QueueCodeQueues(db: Tables, s: Subject, p: Purpose, email: Email, n: NewCode)
    ensures QueueCode(db, s, p, email, n).events ==
      db.events[n.event := Event(n.id, n.queueAt, n.queueAt, 0, None, None)]
  {
  }

  lemma IssueCodeQueues(db: Tables, s: Subject, p: Purpose, n: NewCode)
    requires s in db.accounts
    ensures IssueCode(db, s, p, n).events == db.events[n.event := Event(n.id, n.queueAt, n.queueAt, 0, None, None)]
  {
    hide QueueCode, ReplaceCurrentChallenge, DeleteReplacedChallengeDeliveries;
    ReplaceKeepsEvents(db, s, p, n.replaceAt);
    QueueCodeQueues(ReplaceCode(db, s, p, n.replaceAt), s, p, db.accounts[s].email, n);
  }

  lemma ReplaceKeepsEvents(db: Tables, s: Subject, p: Purpose, now: Time)
    ensures ReplaceCode(db, s, p, now).events == db.events && ReplaceCode(db, s, p, now).accounts == db.accounts
  {
  }

  lemma RequestsQueue(db: Tables, tx: Tx)
    requires tx.RequestVerificationCode? || tx.RequestClaimCode? || tx.RequestResetCode?
      || tx.RequestReauthenticationCode?
    ensures QueuedAt(db.events, After(Run(db, tx)).events, QueueTime(tx))
  {
    hide IssueCode, CanIssueCode, SessionActive;
    forall s, p | s in db.accounts
      ensures IssueCode(db, s, p, tx.issue).events ==
        db.events[tx.issue.event := Event(tx.issue.id, tx.issue.queueAt, tx.issue.queueAt, 0, None, None)]
    {
      IssueCodeQueues(db, s, p, tx.issue);
    }
    if tx.RequestVerificationCode? || tx.RequestReauthenticationCode? {
      CallerExists(db, tx.caller, tx.login, tx.lockAt);
    }
  }

  lemma SignUpQueues(db: Tables, tx: Tx)
    requires tx.SignUp?
    ensures QueuedAt(db.events, After(RunSignUp(db, tx)).events, QueueTime(tx))
  {
    hide QueueCode;
    var signedIn := OpenSession(InsertAccount(db, tx.subject, tx.email, Some(tx.hash), None), tx.subject, tx.session);
    QueueCodeQueues(signedIn, tx.subject, PurposeVerifyEmail, tx.email, tx.issue);
  }

  lemma OpeningKeepsEvents(db: Tables, s: Subject, n: NewSession)
    ensures OpenSession(db, s, n).events == db.events
  {
  }

  lemma LinkingKeepsEvents(db: Tables, s: Subject, email: Email, verifiedAt: Option<Time>, who: ProviderIdentity)
    ensures CreateProviderLink(InsertAccount(db, s, email, None, verifiedAt), who, s).events == db.events
  {
  }

  lemma ProviderLoginQueues(db: Tables, tx: Tx)
    requires tx.ProviderLogin?
    ensures QueuedAt(db.events, After(RunProviderLogin(db, tx)).events, QueueTime(tx))
  {
    hide QueueCode, IsActive, Retired, OpenSession, InsertAccount, CreateProviderLink;
    if tx.who in db.links { OpeningKeepsEvents(db, db.links[tx.who], tx.session); }
    if tx.usable.Some? {
      var email := tx.usable.value.email;
      var verifiedAt := if tx.usable.value.verified then Some(tx.session.createAt) else None;
      var linked := CreateProviderLink(InsertAccount(db, tx.subject, email, None, verifiedAt), tx.who, tx.subject);
      LinkingKeepsEvents(db, tx.subject, email, verifiedAt, tx.who);
      QueueCodeQueues(linked, tx.subject, PurposeVerifyEmail, email, tx.issue);
      OpeningKeepsEvents(linked, tx.subject, tx.session);
      OpeningKeepsEvents(QueueCode(linked, tx.subject, PurposeVerifyEmail, email, tx.issue), tx.subject, tx.session);
    }
  }

  lemma SubmissionKeepsEvents(db: Tables, s: Subject, p: Purpose, code: string, appNow: Time, guessAt: Time)
    requires s in db.accounts
    ensures var g := SubmitCode(db, s, p, code, appNow, guessAt);
      g.db.events == db.events && g.db.sessions == db.sessions
  {
  }

  lemma RetireKeepsEvents(db: Tables, s: Subject, now: Time)
    ensures RetireAndRevoke(db, s, now).events == db.events
  {
  }

  lemma ResetKeepsEvents(db: Tables, s: Subject, id: ChallengeId, hash: PasswordHash, notice: NoticeId, now: Time)
    ensures ApplyPasswordReset(db, s, id, hash, notice, now).events == db.events
  {
  }

  lemma CodesKeepEvents(db: Tables, tx: Tx)
    requires tx.VerifyEmail? || tx.ClaimAccount? || tx.ResetPassword? || tx.ReauthenticateWithCode?
    ensures After(Run(db, tx)).events == db.events
  {
    hide SubmitCode, RetireAndRevoke, ApplyPasswordReset, SessionActive, RunSignUp, RunProviderLogin;
    forall s, p, appNow, guessAt | s in db.accounts
      ensures var g := SubmitCode(db, s, p, tx.code, appNow, guessAt);
        g.db.events == db.events && g.db.sessions == db.sessions
    {
      SubmissionKeepsEvents(db, s, p, tx.code, appNow, guessAt);
    }
    if tx.VerifyEmail? {
      CallerExists(db, tx.caller, tx.login, tx.lockAt);
    } else if tx.ClaimAccount? {
      forall other: Tables, s: Subject ensures RetireAndRevoke(other, s, tx.writeAt).events == other.events {
        RetireKeepsEvents(other, s, tx.writeAt);
      }
    } else if tx.ResetPassword? {
      forall other: Tables, s: Subject, id: ChallengeId
        ensures ApplyPasswordReset(other, s, id, tx.hash, tx.notice, tx.writeAt).events == other.events
      {
        ResetKeepsEvents(other, s, id, tx.hash, tx.notice, tx.writeAt);
      }
    } else {
      CallerExists(db, tx.caller, tx.login, tx.lockAt);
    }
  }

  lemma CallerExists(db: Tables, s: Subject, id: SessionId, at: Time)
    ensures SessionActive(db, s, id, at) ==> s in db.accounts && id in db.sessions
  {
  }

  lemma CommitKeepsEvents(db: Tables, id: SessionId, observedAt: Time, deadline: Time, c: CommitClock)
    requires id in db.sessions
    ensures var r := CommitProof(db, id, observedAt, deadline, c); r.Some? ==> r.value.events == db.events
  {
    hide IsOpen, CommitsBefore;
  }

  lemma ProofKeepsEvents(db: Tables, tx: Tx)
    requires tx.ReauthenticateWithProof?
    ensures After(RunReauthenticateWithProof(db, tx)).events == db.events
  {
    hide SessionActive, CommitProof, Live;
    CallerExists(db, tx.caller, tx.login, tx.lockAt);
    if SessionLocked(db, tx.caller, tx.login, tx.lockAt, tx.observedAt) {
      CommitKeepsEvents(db, tx.login, tx.observedAt, SessionDeadline(WindowOf(db.sessions[tx.login])), tx.commit);
    }
  }

  lemma TokensKeepEvents(db: Tables, next: TokenHash, id: SessionId, spent: TokenHash, at: Time)
    ensures RotateCurrentRefreshToken(RecordRotatedRefreshToken(db, spent, id), next, id, spent, at).events == db.events
    ensures RevokeRefreshSession(db, id, at).events == db.events
  {
  }

  lemma RotateKeepsEvents(db: Tables, tx: Tx)
    requires tx.Rotate?
    ensures After(RunRotate(db, tx)).events == db.events
  {
    hide Live, CanRotate, RotateCurrentRefreshToken, RevokeRefreshSession;
    TokensKeepEvents(db, tx.next, tx.login, tx.spent, tx.writeAt);
  }

  lemma LogoutKeepsEvents(db: Tables, tx: Tx)
    requires tx.LogoutCurrent? || tx.LogoutAll?
    ensures After(if tx.LogoutCurrent? then RunLogoutCurrent(db, tx) else RunLogoutAll(db, tx)).events == db.events
  {
    hide SessionActive;
  }

  lemma SessionsKeepEvents(db: Tables, tx: Tx)
    requires tx.ReauthenticateWithProof? || tx.IssueLogin? || tx.Rotate? || tx.LogoutCurrent? || tx.LogoutAll?
    ensures After(Run(db, tx)).events == db.events
  {
    hide RunReauthenticateWithProof, RunRotate, RunLogoutCurrent, RunLogoutAll;
    if tx.ReauthenticateWithProof? {
      ProofKeepsEvents(db, tx);
    } else if tx.Rotate? {
      RotateKeepsEvents(db, tx);
    } else if tx.LogoutCurrent? || tx.LogoutAll? {
      LogoutKeepsEvents(db, tx);
    }
  }

  /** A transaction queues at most events of its own queue time. */
  lemma TransactionQueuedAt(db: Tables, tx: Tx)
    ensures QueuedAt(db.events, After(Run(db, tx)).events, QueueTime(tx))
  {
    hide Run;
    if tx.SignUp? {
      assert Run(db, tx) == RunSignUp(db, tx) by { RunOfSignUp(db, tx); }
      SignUpQueues(db, tx);
    } else if tx.ProviderLogin? {
      assert Run(db, tx) == RunProviderLogin(db, tx) by { RunOfProviderLogin(db, tx); }
      ProviderLoginQueues(db, tx);
    } else if tx.VerifyEmail? || tx.ClaimAccount? || tx.ResetPassword? || tx.ReauthenticateWithCode? {
      CodesKeepEvents(db, tx);
    } else if tx.ReauthenticateWithProof? || tx.IssueLogin? || tx.Rotate? || tx.LogoutCurrent? || tx.LogoutAll? {
      SessionsKeepEvents(db, tx);
    } else {
      RequestsQueue(db, tx);
    }
  }

  lemma RunOfSignUp(db: Tables, tx: Tx)
    requires tx.SignUp?
    ensures Run(db, tx) == RunSignUp(db, tx)
  {
    hide RunSignUp;
  }

  lemma RunOfProviderLogin(db: Tables, tx: Tx)
    requires tx.ProviderLogin?
    ensures Run(db, tx) == RunProviderLogin(db, tx)
  {
    hide RunProviderLogin;
  }
}
