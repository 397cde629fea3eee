/**
 The purge is invisible: it deletes exactly the material that no delivery would
 send, and a run without its purges sends the same emails.
 */
module PurgeTheorems {
  import opened Options
  import opened Clock
  import opened Schema
  import opened Statements
  import opened Consistency
  import opened ChallengeCheck
  import opened Transactions
  import opened TransactionProofs
  import opened Pacing
  import opened System
  import opened SystemInvariant
  import opened Reauthentication
  import Erasure
  import opened Runs

  /** The condition of the purge statement is exactly the negation of the worker's test. */
  lemma TerminalIsNotCurrent(a: Account, c: Challenge, now: Time)
    ensures IsTerminal(a, c, now) <==> !IsCurrentDelivery(a, c, now)
  {
  }

  // ----- Transactions do not look at material -----

  // The same tables, but for leftover material of the challenges in `extra`.
  ghost predicate Over(db: Tables, more: Tables, extra: set<ChallengeId>) {
    && more == db.(deliveries := more.deliveries)
    && (forall id :: id in db.deliveries ==> id in more.deliveries && more.deliveries[id] == db.deliveries[id])
    && (forall id :: id in more.deliveries && id !in db.deliveries ==> id in extra)
  }

  lemma ReplaceIgnoresMaterial(db: Tables, more: Tables, extra: set<ChallengeId>, s: Subject, p: Purpose, now: Time)
    requires Over(db, more, extra)
    ensures Over(ReplaceCurrentChallenge(db, s, p, now), ReplaceCurrentChallenge(more, s, p, now), extra)
  {
  }

  lemma DeleteReplacedIgnoresMaterial(db: Tables, more: Tables, extra: set<ChallengeId>, s: Subject, p: Purpose)
    requires Over(db, more, extra)
    ensures Over(DeleteReplacedChallengeDeliveries(db, s, p), DeleteReplacedChallengeDeliveries(more, s, p), extra)
  {
  }

  lemma QueueIgnoresMaterial(
    db: Tables, more: Tables, extra: set<ChallengeId>, s: Subject, p: Purpose, email: Email, n: NewCode)
    requires Over(db, more, extra)
    ensures Over(QueueCode(db, s, p, email, n), QueueCode(more, s, p, email, n), extra)
  {
  }

  lemma IssueIgnoresMaterial(db: Tables, more: Tables, extra: set<ChallengeId>, s: Subject, p: Purpose, n: NewCode)
    requires Over(db, more, extra) && s in db.accounts
    ensures Over(IssueCode(db, s, p, n), IssueCode(more, s, p, n), extra)
  {
    assert Over(ReplaceCode(db, s, p, n.replaceAt), ReplaceCode(more, s, p, n.replaceAt), extra) by {
      hide Over, ReplaceCurrentChallenge, DeleteReplacedChallengeDeliveries;
      ReplaceIgnoresMaterial(db, more, extra, s, p, n.replaceAt);
      DeleteReplacedIgnoresMaterial(ReplaceCurrentChallenge(db, s, p, n.replaceAt),
        ReplaceCurrentChallenge(more, s, p, n.replaceAt), extra, s, p);
    }
    hide ReplaceCode, QueueCode;
    QueueIgnoresMaterial(ReplaceCode(db, s, p, n.replaceAt), ReplaceCode(more, s, p, n.replaceAt), extra, s, p,
      db.accounts[s].email, n);
  }

  lemma SubmitIgnoresMaterial(
    db: Tables, more: Tables, extra: set<ChallengeId>, s: Subject, p: Purpose, code: string, appNow: Time,
    guessAt: Time)
    requires Over(db, more, extra) && s in db.accounts
    ensures var g, h := SubmitCode(db, s, p, code, appNow, guessAt), SubmitCode(more, s, p, code, appNow, guessAt);
      Over(g.db, h.db, extra) && g.Hit? == h.Hit? && (g.Hit? ==> g.id == h.id)
  {
  }

  lemma RetireIgnoresMaterial(db: Tables, more: Tables, extra: set<ChallengeId>, s: Subject, now: Time)
    requires Over(db, more, extra)
    ensures Over(RetireAndRevoke(db, s, now), RetireAndRevoke(more, s, now), extra)
  {
  }

  lemma UpdateIgnoresMaterial(db: Tables, more: Tables, extra: set<ChallengeId>, s: Subject, hash: PasswordHash)
    requires Over(db, more, extra)
    ensures Over(UpdatePasswordHash(db, s, hash), UpdatePasswordHash(more, s, hash), extra)
  {
  }

  lemma RevokeIgnoresMaterial(db: Tables, more: Tables, extra: set<ChallengeId>, s: Subject, now: Time)
    requires Over(db, more, extra)
    ensures Over(RevokeAccountSessions(db, s, now), RevokeAccountSessions(more, s, now), extra)
  {
  }

  lemma NoticeIgnoresMaterial(db: Tables, more: Tables, extra: set<ChallengeId>, n: NoticeId, s: Subject, now: Time)
    requires Over(db, more, extra)
    ensures Over(QueuePasswordChangeNotice(db, n, s, now), QueuePasswordChangeNotice(more, n, s, now), extra)
  {
  }

  lemma DeleteIgnoresMaterial(db: Tables, more: Tables, extra: set<ChallengeId>, id: ChallengeId)
    requires Over(db, more, extra)
    ensures Over(DeleteChallengeDelivery(db, id), DeleteChallengeDelivery(more, id), extra)
  {
  }

  lemma ResetIgnoresMaterial(
    db: Tables, more: Tables, extra: set<ChallengeId>, s: Subject, id: ChallengeId, hash: PasswordHash, n: NoticeId,
    now: Time)
    requires Over(db, more, extra)
    ensures Over(ApplyPasswordReset(db, s, id, hash, n, now), ApplyPasswordReset(more, s, id, hash, n, now), extra)
  {
    hide Over, ReplaceCurrentChallenge, DeleteReplacedChallengeDeliveries, DeleteChallengeDelivery;
    hide UpdatePasswordHash, RevokeAccountSessions, QueuePasswordChangeNotice;
    var p := PurposePasswordReset;
    ReplaceIgnoresMaterial(db, more, extra, s, p, now);
    var a, b := ReplaceCurrentChallenge(db, s, p, now), ReplaceCurrentChallenge(more, s, p, now);
    DeleteReplacedIgnoresMaterial(a, b, extra, s, p);
    var c, d := DeleteReplacedChallengeDeliveries(a, s, p), DeleteReplacedChallengeDeliveries(b, s, p);
    DeleteIgnoresMaterial(c, d, extra, id);
    var e, f := DeleteChallengeDelivery(c, id), DeleteChallengeDelivery(d, id);
    UpdateIgnoresMaterial(e, f, extra, s, hash);
    RevokeIgnoresMaterial(UpdatePasswordHash(e, s, hash), UpdatePasswordHash(f, s, hash), extra, s, now);
    var g, h := RevokeAccountSessions(UpdatePasswordHash(e, s, hash), s, now),
      RevokeAccountSessions(UpdatePasswordHash(f, s, hash), s, now);
    NoticeIgnoresMaterial(g, h, extra, n, s, now);
  }

  lemma OpenIgnoresMaterial(db: Tables, more: Tables, extra: set<ChallengeId>, s: Subject, session: NewSession)
    requires Over(db, more, extra)
    ensures Over(OpenSession(db, s, session), OpenSession(more, s, session), extra)
  {
  }

  lemma SignUpIgnoresMaterial(db: Tables, more: Tables, extra: set<ChallengeId>, tx: Tx)
    requires Over(db, more, extra) && tx.SignUp?
    ensures ReplyOf(RunSignUp(more, tx)) == ReplyOf(RunSignUp(db, tx))
    ensures Over(After(RunSignUp(db, tx)), After(RunSignUp(more, tx)), extra)
  {
    hide QueueCode, OpenSession;
    var a, b := InsertAccount(db, tx.subject, tx.email, Some(tx.hash), None),
      InsertAccount(more, tx.subject, tx.email, Some(tx.hash), None);
    OpenIgnoresMaterial(a, b, extra, tx.subject, tx.session);
    QueueIgnoresMaterial(OpenSession(a, tx.subject, tx.session), OpenSession(b, tx.subject, tx.session), extra,
      tx.subject, PurposeVerifyEmail, tx.email, tx.issue);
  }

  lemma LinkIgnoresMaterial(
    db: Tables, more: Tables, extra: set<ChallengeId>, s: Subject, usable: ProviderEmail, who: ProviderIdentity,
    session: NewSession, n: NewCode)
    requires Over(db, more, extra)
    ensures
      var verifiedAt := if usable.verified then Some(session.createAt) else None;
      var a := CreateProviderLink(InsertAccount(db, s, usable.email, None, verifiedAt), who, s);
      var b := CreateProviderLink(InsertAccount(more, s, usable.email, None, verifiedAt), who, s);
      var c := if usable.verified then a else QueueCode(a, s, PurposeVerifyEmail, usable.email, n);
      var d := if usable.verified then b else QueueCode(b, s, PurposeVerifyEmail, usable.email, n);
      Over(OpenSession(c, s, session), OpenSession(d, s, session), extra)
  {
    hide QueueCode, OpenSession;
    var verifiedAt := if usable.verified then Some(session.createAt) else None;
    var a := CreateProviderLink(InsertAccount(db, s, usable.email, None, verifiedAt), who, s);
    var b := CreateProviderLink(InsertAccount(more, s, usable.email, None, verifiedAt), who, s);
    assert Over(a, b, extra);
    QueueIgnoresMaterial(a, b, extra, s, PurposeVerifyEmail, usable.email, n);
    var c := if usable.verified then a else QueueCode(a, s, PurposeVerifyEmail, usable.email, n);
    var d := if usable.verified then b else QueueCode(b, s, PurposeVerifyEmail, usable.email, n);
    OpenIgnoresMaterial(c, d, extra, s, session);
  }

  lemma ProviderLoginIgnoresMaterial(db: Tables, more: Tables, extra: set<ChallengeId>, tx: Tx)
    requires Over(db, more, extra) && tx.ProviderLogin?
    ensures ReplyOf(RunProviderLogin(more, tx)) == ReplyOf(RunProviderLogin(db, tx))
    ensures Over(After(RunProviderLogin(db, tx)), After(RunProviderLogin(more, tx)), extra)
  {
    hide QueueCode, OpenSession, InsertAccount, CreateProviderLink;
    if tx.who in db.links { OpenIgnoresMaterial(db, more, extra, db.links[tx.who], tx.session); }
    if tx.usable.Some? {
      LinkIgnoresMaterial(db, more, extra, tx.subject, tx.usable.value, tx.who, tx.session, tx.issue);
    }
  }

  lemma CheckIgnoresMaterial(db: Tables, more: Tables, extra: set<ChallengeId>)
    requires Over(db, more, extra)
    ensures forall s, now :: CanIssueCode(more, s, now) == CanIssueCode(db, s, now)
    ensures forall s, cutoff ::
      ReauthenticationIssuedAfter(more, s, cutoff) == ReauthenticationIssuedAfter(db, s, cutoff)
  {
    forall s, cutoff ensures IssuedAfter(more, s, cutoff) == IssuedAfter(db, s, cutoff) {
    }
  }

  lemma VerificationRequestIgnoresMaterial(db: Tables, more: Tables, extra: set<ChallengeId>, tx: Tx)
    requires Over(db, more, extra) && tx.RequestVerificationCode?
    ensures ReplyOf(RunRequestVerificationCode(more, tx)) == ReplyOf(RunRequestVerificationCode(db, tx))
    ensures Over(After(RunRequestVerificationCode(db, tx)), After(RunRequestVerificationCode(more, tx)), extra)
  {
    CheckIgnoresMaterial(db, more, extra);
    ActiveIgnoresMaterial(db, more, extra, tx.caller, tx.login, tx.lockAt);
    hide IssueCode, CanIssueCode, SessionActive;
    if tx.caller in db.accounts { IssueIgnoresMaterial(db, more, extra, tx.caller, PurposeVerifyEmail, tx.issue); }
  }

  lemma ReauthenticationRequestIgnoresMaterial(db: Tables, more: Tables, extra: set<ChallengeId>, tx: Tx)
    requires Over(db, more, extra) && tx.RequestReauthenticationCode?
    ensures ReplyOf(RunRequestReauthenticationCode(more, tx)) == ReplyOf(RunRequestReauthenticationCode(db, tx))
    ensures Over(After(RunRequestReauthenticationCode(db, tx)), After(RunRequestReauthenticationCode(more, tx)), extra)
  {
    CheckIgnoresMaterial(db, more, extra);
    ActiveIgnoresMaterial(db, more, extra, tx.caller, tx.login, tx.lockAt);
    hide IssueCode, CanIssueCode, ReauthenticationIssuedAfter, SessionActive;
    if tx.caller in db.accounts { IssueIgnoresMaterial(db, more, extra, tx.caller, PurposeReauthenticate, tx.issue); }
  }

  lemma EmailRequestIgnoresMaterial(db: Tables, more: Tables, extra: set<ChallengeId>, tx: Tx)
    requires Over(db, more, extra) && (tx.RequestClaimCode? || tx.RequestResetCode?)
    ensures ReplyOf(Run(more, tx)) == ReplyOf(Run(db, tx)) && Over(After(Run(db, tx)), After(Run(more, tx)), extra)
  {
    CheckIgnoresMaterial(db, more, extra);
    hide IssueCode, CanIssueCode;
    var found := FindActive(db.accounts, tx.email);
    if found.Some? {
      IssueIgnoresMaterial(db, more, extra, found.value, if tx.RequestClaimCode?
        then PurposeClaimAccount else PurposePasswordReset, tx.issue);
    }
  }

  lemma RequestsIgnoreMaterial(db: Tables, more: Tables, extra: set<ChallengeId>, tx: Tx)
    requires Over(db, more, extra)
    requires tx.RequestVerificationCode? || tx.RequestClaimCode? || tx.RequestResetCode?
      || tx.RequestReauthenticationCode?
    ensures ReplyOf(Run(more, tx)) == ReplyOf(Run(db, tx)) && Over(After(Run(db, tx)), After(Run(more, tx)), extra)
  {
    hide Over, RunRequestVerificationCode, RunRequestReauthenticationCode;
    if tx.RequestVerificationCode? {
      VerificationRequestIgnoresMaterial(db, more, extra, tx);
    } else if tx.RequestReauthenticationCode? {
      ReauthenticationRequestIgnoresMaterial(db, more, extra, tx);
    } else {
      EmailRequestIgnoresMaterial(db, more, extra, tx);
    }
  }

  lemma ActiveIgnoresMaterial(db: Tables, more: Tables, extra: set<ChallengeId>, s: Subject, id: SessionId, now: Time)
    requires Over(db, more, extra)
    ensures SessionActive(more, s, id, now) == SessionActive(db, s, id, now)
    ensures SessionActive(db, s, id, now) ==> s in db.accounts && id in db.sessions
  {
  }

  lemma VerifyIgnoresMaterial(db: Tables, more: Tables, extra: set<ChallengeId>, tx: Tx)
    requires Over(db, more, extra) && tx.VerifyEmail?
    ensures ReplyOf(RunVerifyEmail(more, tx)) == ReplyOf(RunVerifyEmail(db, tx))
    ensures Over(After(RunVerifyEmail(db, tx)), After(RunVerifyEmail(more, tx)), extra)
  {
    hide SubmitCode, SessionActive, ValidVerificationCode;
    ActiveIgnoresMaterial(db, more, extra, tx.caller, tx.login, tx.lockAt);
    if tx.caller in db.accounts {
      SubmitIgnoresMaterial(db, more, extra, tx.caller, PurposeVerifyEmail, tx.code, tx.appNow, tx.guessAt);
    }
  }

  lemma ReplacingIgnoresMaterial(
    db: Tables, more: Tables, extra: set<ChallengeId>, s: Subject, subject: Subject, email: Email,
    hash: PasswordHash, session: NewSession, now: Time)
    requires Over(db, more, extra)
    ensures
      var a := MarkEmailVerified(InsertAccount(RetireAndRevoke(db, s, now), subject, email, Some(hash), None),
        subject, now);
      var b := MarkEmailVerified(InsertAccount(RetireAndRevoke(more, s, now), subject, email, Some(hash), None),
        subject, now);
      Over(OpenSession(a, subject, session), OpenSession(b, subject, session), extra)
  {
    hide RetireAndRevoke;
    RetireIgnoresMaterial(db, more, extra, s, now);
  }

  lemma ClaimIgnoresMaterial(db: Tables, more: Tables, extra: set<ChallengeId>, tx: Tx)
    requires Over(db, more, extra) && tx.ClaimAccount?
    ensures ReplyOf(RunClaimAccount(more, tx)) == ReplyOf(RunClaimAccount(db, tx))
    ensures Over(After(RunClaimAccount(db, tx)), After(RunClaimAccount(more, tx)), extra)
  {
    hide SubmitCode, RetireAndRevoke, MarkEmailVerified, InsertAccount, OpenSession;
    var found := FindActive(db.accounts, tx.email);
    if found.Some? {
      SubmitIgnoresMaterial(db, more, extra, found.value, PurposeClaimAccount, tx.code, tx.appNow, tx.guessAt);
      var a := SubmitCode(db, found.value, PurposeClaimAccount, tx.code, tx.appNow, tx.guessAt).db;
      var b := SubmitCode(more, found.value, PurposeClaimAccount, tx.code, tx.appNow, tx.guessAt).db;
      ReplacingIgnoresMaterial(a, b, extra, found.value, tx.subject, tx.email, tx.hash, tx.session, tx.writeAt);
    }
  }

  lemma ResetPasswordIgnoresMaterial(db: Tables, more: Tables, extra: set<ChallengeId>, tx: Tx)
    requires Over(db, more, extra) && tx.ResetPassword?
    ensures ReplyOf(RunResetPassword(more, tx)) == ReplyOf(RunResetPassword(db, tx))
    ensures Over(After(RunResetPassword(db, tx)), After(RunResetPassword(more, tx)), extra)
  {
    hide SubmitCode, ApplyPasswordReset;
    var found := FindActive(db.accounts, tx.email);
    if found.Some? {
      SubmitIgnoresMaterial(db, more, extra, found.value, PurposePasswordReset, tx.code, tx.appNow, tx.guessAt);
      var g := SubmitCode(db, found.value, PurposePasswordReset, tx.code, tx.appNow, tx.guessAt);
      var h := SubmitCode(more, found.value, PurposePasswordReset, tx.code, tx.appNow, tx.guessAt);
      if g.Hit? { ResetIgnoresMaterial(g.db, h.db, extra, found.value, g.id, tx.hash, tx.notice, tx.writeAt); }
    }
  }

  lemma ReauthenticateIgnoresMaterial(db: Tables, more: Tables, extra: set<ChallengeId>, tx: Tx)
    requires Over(db, more, extra) && tx.ReauthenticateWithCode?
    ensures ReplyOf(RunReauthenticateWithCode(more, tx)) == ReplyOf(RunReauthenticateWithCode(db, tx))
    ensures Over(After(RunReauthenticateWithCode(db, tx)), After(RunReauthenticateWithCode(more, tx)), extra)
  {
    SameOtherTables(db, more, extra);
    LockIgnoresMaterial(db, more, tx.caller, tx.login, tx.lockAt, tx.observedAt);
    hide SubmitCode, CommitProof, SessionLocked, Over, Live;
    if SessionLocked(db, tx.caller, tx.login, tx.lockAt, tx.observedAt) {
      SubmitIgnoresMaterial(db, more, extra, tx.caller, PurposeReauthenticate, tx.code, tx.observedAt, tx.guessAt);
      SubmittedKeys(db, tx.caller, PurposeReauthenticate, tx.code, tx.observedAt, tx.guessAt);
      var g, h := SubmitCode(db, tx.caller, PurposeReauthenticate, tx.code, tx.observedAt, tx.guessAt),
        SubmitCode(more, tx.caller, PurposeReauthenticate, tx.code, tx.observedAt, tx.guessAt);
      if g.Hit? {
        SubmittedKeys(more, tx.caller, PurposeReauthenticate, tx.code, tx.observedAt, tx.guessAt);
        var deadline := Min(SessionDeadline(WindowOf(db.sessions[tx.login])), db.challenges[g.id].expiresAt);
        CommitIgnoresMaterial(g.db, h.db, extra, tx.login, tx.windowAt, deadline, tx.commit);
      }
    }
  }

  lemma SameOtherTables(db: Tables, more: Tables, extra: set<ChallengeId>)
    requires Over(db, more, extra)
    ensures more == db.(deliveries := more.deliveries)
  {
  }

  lemma LockIgnoresMaterial(db: Tables, more: Tables, s: Subject, id: SessionId, lockAt: Time, observedAt: Time)
    requires more == db.(deliveries := more.deliveries)
    ensures SessionLocked(more, s, id, lockAt, observedAt) == SessionLocked(db, s, id, lockAt, observedAt)
    ensures SessionLocked(db, s, id, lockAt, observedAt) ==> s in db.accounts && id in db.sessions
  {
  }

  lemma CommitIgnoresMaterial(
    db: Tables, more: Tables, extra: set<ChallengeId>, id: SessionId, observedAt: Time, deadline: Time, c: CommitClock)
    requires Over(db, more, extra) && id in db.sessions
    ensures var r, q := CommitProof(db, id, observedAt, deadline, c), CommitProof(more, id, observedAt, deadline, c);
      r.Some? == q.Some? && (r.Some? ==> Over(r.value, q.value, extra))
  {
    hide IsOpen, CommitsBefore;
  }

  lemma RotateIgnoresMaterial(db: Tables, more: Tables, extra: set<ChallengeId>, tx: Tx)
    requires Over(db, more, extra) && tx.Rotate?
    ensures ReplyOf(RunRotate(more, tx)) == ReplyOf(RunRotate(db, tx))
    ensures Over(After(RunRotate(db, tx)), After(RunRotate(more, tx)), extra)
  {
  }

  lemma ProofIgnoresMaterial(db: Tables, more: Tables, extra: set<ChallengeId>, tx: Tx)
    requires Over(db, more, extra) && tx.ReauthenticateWithProof?
    ensures ReplyOf(RunReauthenticateWithProof(more, tx)) == ReplyOf(RunReauthenticateWithProof(db, tx))
    ensures Over(After(RunReauthenticateWithProof(db, tx)), After(RunReauthenticateWithProof(more, tx)), extra)
  {
  }

  lemma IssueLoginIgnoresMaterial(db: Tables, more: Tables, extra: set<ChallengeId>, tx: Tx)
    requires Over(db, more, extra) && tx.IssueLogin?
    ensures ReplyOf(RunIssueLogin(more, tx)) == ReplyOf(RunIssueLogin(db, tx))
    ensures Over(After(RunIssueLogin(db, tx)), After(RunIssueLogin(more, tx)), extra)
  {
  }

  lemma SessionsIgnoreMaterial(db: Tables, more: Tables, extra: set<ChallengeId>, tx: Tx)
    requires Over(db, more, extra)
    requires tx.ReauthenticateWithProof? || tx.IssueLogin? || tx.Rotate? || tx.LogoutCurrent? || tx.LogoutAll?
    ensures ReplyOf(Run(more, tx)) == ReplyOf(Run(db, tx)) && Over(After(Run(db, tx)), After(Run(more, tx)), extra)
  {
    hide RunRotate, RunReauthenticateWithProof, RunIssueLogin;
    if tx.Rotate? {
      RotateIgnoresMaterial(db, more, extra, tx);
    } else if tx.ReauthenticateWithProof? {
      ProofIgnoresMaterial(db, more, extra, tx);
    } else if tx.IssueLogin? {
      IssueLoginIgnoresMaterial(db, more, extra, tx);
    } else if tx.LogoutAll? {
      RevokeIgnoresMaterial(db, more, extra, tx.caller, tx.writeAt);
    }
  }

  /** No transaction reads delivery material: leftover material changes no reply and no other table. */
  lemma RunIgnoresMaterial(db: Tables, more: Tables, extra: set<ChallengeId>, tx: Tx)
    requires Over(db, more, extra)
    ensures ReplyOf(Run(more, tx)) == ReplyOf(Run(db, tx)) && Over(After(Run(db, tx)), After(Run(more, tx)), extra)
  {
    hide Over;
    if tx.SignUp? {
      SignUpIgnoresMaterial(db, more, extra, tx);
    } else if tx.ProviderLogin? {
      ProviderLoginIgnoresMaterial(db, more, extra, tx);
    } else if tx.VerifyEmail? {
      VerifyIgnoresMaterial(db, more, extra, tx);
    } else if tx.ClaimAccount? {
      ClaimIgnoresMaterial(db, more, extra, tx);
    } else if tx.ResetPassword? {
      ResetPasswordIgnoresMaterial(db, more, extra, tx);
    } else if tx.ReauthenticateWithCode? {
      ReauthenticateIgnoresMaterial(db, more, extra, tx);
    } else if
      tx.RequestVerificationCode? || tx.RequestClaimCode? || tx.RequestResetCode? || tx.RequestReauthenticationCode?
    {
      RequestsIgnoreMaterial(db, more, extra, tx);
    } else {
      SessionsIgnoreMaterial(db, more, extra, tx);
    }
  }

  // ----- Erasing the purges of a run -----

  // Material that no later delivery of the account can find current.
  predicate Leftover(accounts: Accounts, challenges: Challenges, settled: map<Subject, Time>, id: ChallengeId) {
    && id in challenges && challenges[id].subject in accounts && challenges[id].subject in settled
    && IsTerminal(accounts[challenges[id].subject], challenges[id], settled[challenges[id].subject])
  }

  function Kept(st: State, tt: State): set<ChallengeId> {
    tt.db.deliveries.Keys - st.db.deliveries.Keys
  }

  ghost predicate Earlier(settled: map<Subject, Time>, later: map<Subject, Time>) {
    settled.Keys == later.Keys && forall s :: s in settled ==> settled[s] <= later[s]
  }

  ghost predicate LeftoversOnly(st: State, ids: set<ChallengeId>) {
    forall id :: id in ids ==> Leftover(st.db.accounts, st.db.challenges, st.settled, id)
  }

  // `tt` is `st` without its purges: only leftover material and earlier lock releases tell them apart.
  ghost predicate Shadows(st: State, tt: State) {
    && tt == st.(db := tt.db, settled := tt.settled)
    && Over(st.db, tt.db, Kept(st, tt))
    && LeftoversOnly(st, Kept(st, tt))
    && Earlier(tt.settled, st.settled)
  }

  lemma LeftoversStay(st: State, st': State, ids: set<ChallengeId>)
    requires LeftoversOnly(st, ids) && ChallengesValid(st.db.accounts, st.db.challenges)
    requires AccountsAdvance(st.db.accounts, st'.db.accounts) && ChallengesAdvance(st.db.challenges, st'.db.challenges)
    requires forall s :: s in st.settled ==> s in st'.settled && st.settled[s] <= st'.settled[s]
    ensures LeftoversOnly(st', ids)
  {
    hide IsTerminal;
    forall id | id in ids ensures Leftover(st'.db.accounts, st'.db.challenges, st'.settled, id) {
      assert Leftover(st.db.accounts, st.db.challenges, st.settled, id);
      var c, d := st.db.challenges[id], st'.db.challenges[id];
      TerminalIsStable(st.db.accounts[c.subject], c, st.settled[c.subject], st'.db.accounts[c.subject], d,
        st'.settled[c.subject]);
    }
  }

  lemma ResettleIsEarlier(
    accounts: Accounts, settled: map<Subject, Time>, later: map<Subject, Time>, locked: set<Subject>, now: Time)
    requires Earlier(settled, later)
    ensures Earlier(Resettle(accounts, settled, locked, now), Resettle(accounts, later, locked, now))
  {
  }

  lemma PurgeIsShadowed(st: State, tt: State, locked: set<Subject>, at: Time)
    requires TablesOk(st) && Enabled(st, Purge(locked, at)) && Shadows(st, tt)
    ensures Shadows(Apply(st, Purge(locked, at)), tt)
  {
    hide IdleBounded, IssuedBefore, AtMostFiveAnHour, AMinuteApart, HashesDrawn, Advances;
    var st' := Apply(st, Purge(locked, at));
    assert Over(st'.db, tt.db, Kept(st', tt));
    ResettledClock(st.db.accounts, st.db.accounts, st.settled, PurgeLocks(st.db, locked, at), st.now);
    LeftoversStay(st, st', Kept(st, tt));
    forall id | id in Kept(st', tt) ensures Leftover(st'.db.accounts, st'.db.challenges, st'.settled, id) {
      if id in st.db.deliveries { assert Purgeable(st.db, id, at); }
    }
  }

  lemma FitsWithoutPurges(
    db: Tables, more: Tables, settled: map<Subject, Time>, later: map<Subject, Time>, now: Time, tx: Tx,
    extra: set<ChallengeId>)
    requires Over(db, more, extra) && Earlier(settled, later) && Fits(db, later, now, tx)
    ensures Fits(more, settled, now, tx) && Locks(more, tx) == Locks(db, tx)
  {
  }

  lemma TransactIsShadowed(st: State, tt: State, tx: Tx)
    requires TablesOk(st) && Enabled(st, Transact(tx)) && Shadows(st, tt)
    ensures Enabled(tt, Transact(tx)) && Shadows(Apply(st, Transact(tx)), Apply(tt, Transact(tx)))
  {
    hide Run, Locks, Fits, TimesOk;
    FitsWithoutPurges(st.db, tt.db, tt.settled, st.settled, st.now, tx, Kept(st, tt));
    var st', tt' := Apply(st, Transact(tx)), Apply(tt, Transact(tx));
    RunIgnoresMaterial(st.db, tt.db, Kept(st, tt), tx);
    ResettleIsEarlier(st'.db.accounts, tt.settled, st.settled, Locks(st.db, tx), st.now);
    forall id | id in Kept(st', tt') ensures id in Kept(st, tt) {
    }
    TransactKeepsLeftovers(st, tx, Kept(st, tt));
  }

  lemma TransactKeepsLeftovers(st: State, tx: Tx, ids: set<ChallengeId>)
    requires TablesOk(st) && Enabled(st, Transact(tx)) && LeftoversOnly(st, ids)
    ensures LeftoversOnly(Apply(st, Transact(tx)), ids)
  {
    hide Run, Locks, LeftoversOnly, IdleBounded, IssuedBefore, AtMostFiveAnHour, AMinuteApart, HashesDrawn;
    var st' := Apply(st, Transact(tx));
    TransactStepAdvances(st, tx);
    ResettledClock(st.db.accounts, st'.db.accounts, st.settled, Locks(st.db, tx), st.now);
    LeftoversStay(st, st', ids);
  }

  // Releasing locks and deleting the material of `gone` in both states.
  lemma ReleaseIsShadowed(st: State, tt: State, gone: set<ChallengeId>, locked: set<Subject>)
    requires TablesOk(st) && Shadows(st, tt)
    ensures Shadows(
      st.(db := st.db.(deliveries := st.db.deliveries - gone),
        settled := Resettle(st.db.accounts, st.settled, locked, st.now)),
      tt.(db := tt.db.(deliveries := tt.db.deliveries - gone),
        settled := Resettle(tt.db.accounts, tt.settled, locked, tt.now)))
  {
    hide IdleBounded, IssuedBefore, AtMostFiveAnHour, AMinuteApart, HashesDrawn;
    var st' := st.(db := st.db.(deliveries := st.db.deliveries - gone),
      settled := Resettle(st.db.accounts, st.settled, locked, st.now));
    FollowsIsReflexive(st.db, {});
    ResettledClock(st.db.accounts, st.db.accounts, st.settled, locked, st.now);
    ResettleIsEarlier(st.db.accounts, tt.settled, st.settled, locked, st.now);
    LeftoversStay(st, st', Kept(st, tt));
  }

  lemma PhaseIsShadowed(st: State, tt: State, p: nat, phase: Phase, holds: map<HoldId, Hold>)
    requires Shadows(st, tt) && p < |st.partitions|
    ensures Shadows(SetPhase(st, p, phase).(holds := holds), SetPhase(tt, p, phase).(holds := holds))
  {
    hide Over, LeftoversOnly, Earlier;
    assert Kept(SetPhase(st, p, phase), SetPhase(tt, p, phase)) == Kept(st, tt);
    LeftoversSame(st, SetPhase(st, p, phase).(holds := holds), Kept(st, tt));
  }

  lemma LeftoversSame(st: State, st': State, ids: set<ChallengeId>)
    requires LeftoversOnly(st, ids) && st'.db == st.db && st'.settled == st.settled
    ensures LeftoversOnly(st', ids)
  {
  }

  // A current delivery has its material in both states or in neither.
  lemma CurrentIsNoLeftover(st: State, tt: State, id: ChallengeId, at: Time)
    requires Shadows(st, tt) && id in st.db.challenges && st.db.challenges[id].subject in st.settled
    requires st.settled[st.db.challenges[id].subject] <= at && st.db.challenges[id].subject in st.db.accounts
    requires IsCurrentDelivery(st.db.accounts[st.db.challenges[id].subject], st.db.challenges[id], at)
    ensures (id in st.db.deliveries) == (id in tt.db.deliveries)
    ensures id in st.db.deliveries ==> tt.db.deliveries[id] == st.db.deliveries[id]
  {
    if id in Kept(st, tt) {
      assert Leftover(st.db.accounts, st.db.challenges, st.settled, id);
      TerminalIsNotCurrent(st.db.accounts[st.db.challenges[id].subject], st.db.challenges[id], at);
    }
  }

  lemma BeginIsShadowed(st: State, tt: State, p: nat, h: HoldId, at: Time)
    requires TablesOk(st) && LogsValid(st.db.challenges, st.partitions) && Enabled(st, Begin(p, h, at))
    requires Shadows(st, tt)
    ensures Enabled(tt, Begin(p, h, at)) && Shadows(BeginDelivery(st, p, h, at), BeginDelivery(tt, p, h, at))
  {
    hide Valid, IdleBounded, IssuedBefore, AtMostFiveAnHour, AMinuteApart, HashesDrawn, LeftoversOnly, Resettle;
    hide IsCurrentDelivery;
    var i := st.partitions[p].phase.index;
    var id := st.partitions[p].log[i].challenge;
    assert RecordValid(st.db.challenges, st.partitions[p].log[i]);
    var c := st.db.challenges[id];
    assert tt.settled[c.subject] <= st.settled[c.subject];
    ReleaseIsShadowed(st, tt, {}, {c.subject});
    ReleaseIsShadowed(st, tt, {id}, {c.subject});
    var none: set<ChallengeId> := {};
    assert st.db.(deliveries := st.db.deliveries - none) == st.db
      && tt.db.(deliveries := tt.db.deliveries - none) == tt.db;
    var a, b := st.(settled := Resettle(st.db.accounts, st.settled, {c.subject}, st.now)),
      tt.(settled := Resettle(tt.db.accounts, tt.settled, {c.subject}, tt.now));
    PhaseIsShadowed(a, b, p, Handled(i), st.holds);
    var d, e := a.(db := DeleteChallengeDelivery(st.db, id)), b.(db := DeleteChallengeDelivery(tt.db, id));
    PhaseIsShadowed(d, e, p, Handled(i), st.holds);
    if IsCurrentDelivery(st.db.accounts[c.subject], c, at) {
      CurrentIsNoLeftover(st, tt, id, at);
      if id in st.db.deliveries {
        PhaseIsShadowed(st, tt, p, Sending(i, h),
          st.holds[h := Hold(id, st.db.accounts[c.subject], c, st.db.deliveries[id], at, false)]);
      }
    }
  }

  lemma FinishIsShadowed(st: State, tt: State, h: HoldId, heardBy: Option<nat>)
    requires TablesOk(st) && Enabled(st, Finish(h, heardBy)) && Shadows(st, tt)
    ensures Enabled(tt, Finish(h, heardBy)) && Shadows(FinishDelivery(st, h, heardBy), FinishDelivery(tt, h, heardBy))
  {
    hide Valid, TimesOk, LeftoversOnly, Resettle;
    ReleaseIsShadowed(st, tt, {st.holds[h].challenge}, {st.holds[h].row.subject});
    var a, b := FinishDelivery(st, h, None), FinishDelivery(tt, h, None);
    HoldsAreShadowed(a.(holds := st.holds), b.(holds := st.holds), st.holds - {h});
    if heardBy.Some? {
      PhaseIsShadowed(a, b, heardBy.value, Handled(st.partitions[heardBy.value].phase.index), a.holds);
    }
  }

  lemma HoldsAreShadowed(st: State, tt: State, holds: map<HoldId, Hold>)
    requires Shadows(st, tt)
    ensures Shadows(st.(holds := holds), tt.(holds := holds))
  {
    hide Over, LeftoversOnly, Earlier;
    LeftoversSame(st, st.(holds := holds), Kept(st, tt));
  }

  lemma AbortIsShadowed(st: State, tt: State, h: HoldId)
    requires TablesOk(st) && Enabled(st, Abort(h)) && Shadows(st, tt)
    ensures Enabled(tt, Abort(h)) && Shadows(Apply(st, Abort(h)), Apply(tt, Abort(h)))
  {
    hide Valid, TimesOk, LeftoversOnly, Resettle;
    var none: set<ChallengeId> := {};
    assert st.db.(deliveries := st.db.deliveries - none) == st.db
      && tt.db.(deliveries := tt.db.deliveries - none) == tt.db;
    ReleaseIsShadowed(st, tt, {}, {st.holds[h].row.subject});
    var a, b := Apply(st, Abort(h)), Apply(tt, Abort(h));
    HoldsAreShadowed(a.(holds := st.holds), b.(holds := st.holds), st.holds - {h});
  }

  lemma EventsAreShadowed(st: State, tt: State, events: Events, relays: map<Owner, Relay>)
    requires Shadows(st, tt)
    ensures Shadows(st.(db := st.db.(events := events), relays := relays),
      tt.(db := tt.db.(events := events), relays := relays))
  {
    hide Leftover, Earlier;
    var st', tt' := st.(db := st.db.(events := events), relays := relays),
      tt.(db := tt.db.(events := events), relays := relays);
    assert Kept(st', tt') == Kept(st, tt);
  }

  // The statements of the relay read and write only the events.
  lemma ClaimReadsEvents(db: Tables, more: Tables, e: EventId, owner: Owner, at: Time)
    requires more == db.(deliveries := more.deliveries)
    ensures var events := ClaimOutboxEvent(db, e, owner, at).events;
      && ClaimOutboxEvent(db, e, owner, at) == db.(events := events)
      && ClaimOutboxEvent(more, e, owner, at) == more.(events := events)
  {
  }

  lemma MarkReadsEvents(db: Tables, more: Tables, e: EventId, owner: Owner, at: Time)
    requires more == db.(deliveries := more.deliveries)
    ensures var events := MarkOutboxPublished(db, e, owner, at).events;
      && MarkOutboxPublished(db, e, owner, at) == db.(events := events)
      && MarkOutboxPublished(more, e, owner, at) == more.(events := events)
  {
  }

  lemma ReleaseReadsEvents(db: Tables, more: Tables, e: EventId, owner: Owner, next: Time, at: Time)
    requires more == db.(deliveries := more.deliveries)
    ensures var events := ReleaseOutboxClaim(db, e, owner, next, at).events;
      && ReleaseOutboxClaim(db, e, owner, next, at) == db.(events := events)
      && ReleaseOutboxClaim(more, e, owner, next, at) == more.(events := events)
  {
  }

  lemma RelayIsShadowed(st: State, tt: State, a: Action)
    requires Enabled(st, a) && Shadows(st, tt) && (a.ClaimEvent? || a.MarkPublished? || a.Release?)
    ensures Enabled(tt, a) && Shadows(Apply(st, a), Apply(tt, a))
  {
    hide Shadows, Over, Fits, Run, Locks, PurgeLocks, Resettle, BeginDelivery, FinishDelivery, RecordOf, HeldSubjects;
    hide Opens, ClaimOutboxEvent, MarkOutboxPublished, ReleaseOutboxClaim;
    SameOutbox(st, tt);
    var e := if a.ClaimEvent? then a.event else st.relays[a.owner].event;
    ClaimReadsEvents(st.db, tt.db, e, a.owner, a.at);
    MarkReadsEvents(st.db, tt.db, e, a.owner, a.at);
    ReleaseReadsEvents(st.db, tt.db, e, a.owner, if a.Release? then a.nextAttemptAt else a.at, a.at);
    EventsAreShadowed(st, tt, Apply(st, a).db.events, Apply(st, a).relays);
  }

  lemma SameOutbox(st: State, tt: State)
    requires Shadows(st, tt)
    ensures tt.db == st.db.(deliveries := tt.db.deliveries) && tt == st.(db := tt.db, settled := tt.settled)
  {
  }

  lemma RestIsShadowed(st: State, tt: State, a: Action)
    requires Enabled(st, a) && Shadows(st, tt)
    requires a.Tick? || a.Poll? || a.Send? || a.Rewind? || a.CommitOffset? || a.Rebalance? || a.Append? || a.CrashRelay?
    ensures Enabled(tt, a) && Shadows(Apply(st, a), Apply(tt, a))
  {
  }

  lemma StepIsShadowed(st: State, tt: State, a: Action)
    requires Inv(st) && Enabled(st, a) && Shadows(st, tt) && !a.Purge?
    ensures Enabled(tt, a) && Shadows(Apply(st, a), Apply(tt, a))
  {
    hide Shadows, TablesOk, HoldsValid, OneHoldPerAccount, PartitionsOk, LogsValid, BeginDelivery, FinishDelivery;
    if a.Transact? {
      TransactIsShadowed(st, tt, a.tx);
    } else if a.Begin? {
      BeginIsShadowed(st, tt, a.p, a.hold, a.at);
    } else if a.Finish? {
      FinishIsShadowed(st, tt, a.hold, a.heardBy);
    } else if a.Abort? {
      AbortIsShadowed(st, tt, a.hold);
    } else if a.ClaimEvent? || a.MarkPublished? || a.Release? {
      RelayIsShadowed(st, tt, a);
    } else {
      RestIsShadowed(st, tt, a);
    }
  }

  ghost predicate IsPurge(st: State, a: Action) { a.Purge? }

  ghost predicate Steps(st: State, a: Action, st': State) {
    Enabled(st, a) && st' == Apply(st, a)
  }

  ghost predicate Reached(st: State, tt: State) { Inv(st) && Shadows(st, tt) }

  lemma RunIsChain(states: seq<State>, actions: seq<Action>)
    ensures IsRun(states, actions) <==> Erasure.IsChain(Steps, states, actions) && Init(states[0])
  {
    hide Enabled, Apply, Init;
    if IsRun(states, actions) {
      forall i | 0 <= i < |actions| ensures Steps(states[i], actions[i], states[i + 1]) {
      }
    }
    if Erasure.IsChain(Steps, states, actions) && Init(states[0]) {
      forall i | 0 <= i < |actions| ensures Enabled(states[i], actions[i])
        && states[i + 1] == Apply(states[i], actions[i]) {
        assert Steps(states[i], actions[i], states[i + 1]);
      }
    }
  }

  lemma InitIsShadowed(st: State)
    requires Init(st)
    ensures Shadows(st, st)
  {
    assert Kept(st, st) == {};
  }

  lemma PurgeStepIsShadowed(st: State, tt: State, a: Action)
    requires Inv(st) && Enabled(st, a) && Shadows(st, tt) && a.Purge?
    ensures Shadows(Apply(st, a), tt)
  {
    hide Shadows, TablesOk, HoldsValid, OneHoldPerAccount, OutboxOk, PartitionsOk;
    PurgeIsShadowed(st, tt, a.locked, a.at);
  }

  lemma AnyStepIsShadowed(st: State, tt: State, a: Action)
    requires Inv(st) && Enabled(st, a) && Shadows(st, tt)
    ensures exists tt' :: Erasure.Answers(Steps, Reached, IsPurge(st, a), a, Apply(st, a), tt, tt')
  {
    hide Inv, Enabled, Apply, Shadows;
    StepKeeps(st, a);
    if a.Purge? {
      PurgeStepIsShadowed(st, tt, a);
      assert Erasure.Answers(Steps, Reached, IsPurge(st, a), a, Apply(st, a), tt, tt);
    } else {
      StepIsShadowed(st, tt, a);
      assert Erasure.Answers(Steps, Reached, IsPurge(st, a), a, Apply(st, a), tt, Apply(tt, a));
    }
  }

  /** The actions of a run without its purges. */
  ghost function WithoutPurges(states: seq<State>, actions: seq<Action>): seq<Action>
    requires |states| == |actions| + 1
  {
    Erasure.Remaining(IsPurge, states, actions)
  }

  /**
   Erasing every purge from a run leaves a run with the same emails, the same broker
   and the same tables, but for material that no delivery would send.
   */
  lemma PurgeIsInvisible(states: seq<State>, actions: seq<Action>)
    requires IsRun(states, actions)
    ensures exists shadow ::
      IsRun(shadow, WithoutPurges(states, actions)) && SameButMaterial(states[|actions|], shadow[|shadow| - 1])
    ensures forall k :: 0 <= k < |WithoutPurges(states, actions)| ==> !WithoutPurges(states, actions)[k].Purge?
  {
    hide Inv, Enabled, Apply, Init;
    var left := WithoutPurges(states, actions);
    RunKeeps(states, actions, 0);
    RunIsChain(states, actions);
    InitIsShadowed(states[0]);
    forall st, a, st', tt | Steps(st, a, st') && Reached(st, tt)
      ensures exists tt' :: Erasure.Answers(Steps, Reached, IsPurge(st, a), a, st', tt, tt')
    {
      AnyStepIsShadowed(st, tt, a);
    }
    Erasure.ErasedRun(Steps, Steps, Reached, IsPurge, states, actions, states[0]);
    var shadow :| Erasure.IsShadow(Steps, Reached, states[0], states[|actions|], shadow, left);
    RunIsChain(shadow, left);
    assert SameButMaterial(states[|actions|], shadow[|shadow| - 1]);
    Erasure.RemainingSatisfy(IsPurge, (a: Action) => !a.Purge?, states, actions);
  }

  ghost predicate SameButMaterial(st: State, tt: State) {
    && tt.mail == st.mail && tt.partitions == st.partitions && tt.holds == st.holds && tt.relays == st.relays
    && tt.now == st.now
    && tt.db == st.db.(deliveries := tt.db.deliveries)
    && forall id :: id in tt.db.deliveries ==>
         || (id in st.db.deliveries && tt.db.deliveries[id] == st.db.deliveries[id])
         || Leftover(st.db.accounts, st.db.challenges, st.settled, id)
  }
}
