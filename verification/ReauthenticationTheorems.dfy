/** Where the proof of a session comes from, in every run, and what a guarded commit can rely on. */
module ReauthenticationTheorems {
  import opened Options
  import opened Clock
  import opened Schema
  import opened Statements
  import opened Consistency
  import opened Reauthentication
  import opened Transactions
  import opened Pacing
  import opened System
  import opened SystemInvariant
  import opened AccountTheorems
  import opened AccountTransaction

  // ----- Windows -----

  /** An open window ends within ten minutes of its proof, and before the session does. */
  lemma WindowBounds(w: Window, now: Time)
    ensures IsOpen(w, now) <==>
      w.provenAt.Some? && w.provenAt.value <= now < w.provenAt.value + 10 * MINUTE && now < w.idleExpiresAt
        && now < w.absoluteExpiresAt
    ensures ExpiresAt(w).Some? ==> ExpiresAt(w).value <= SessionDeadline(w)
  {
  }

  // ----- Proofs move only by a re-authentication -----

  ghost predicate ProofsKept(sessions: Sessions, sessions': Sessions) {
    forall id :: id in sessions ==> id in sessions' && sessions'[id].provenAt == sessions[id].provenAt
  }

  // The transaction proved the session's owner anew, in a closed window, and COMMIT stamped the time `p`.
  ghost predicate Proves(db: Tables, tx: Tx, id: SessionId, p: Time) {
    && (tx.ReauthenticateWithProof? || tx.ReauthenticateWithCode?) && tx.login == id && tx.commit.stampedAt == p
    && ReplyOf(Run(db, tx)) == Accepted && id in db.sessions && db.sessions[id].subject == tx.caller
    && !IsOpen(WindowOf(db.sessions[id]), if tx.ReauthenticateWithProof? then tx.observedAt else tx.windowAt)
    && p < SessionDeadline(WindowOf(db.sessions[id]))
  }

  lemma ProofMovesWithProof(db: Tables, tx: Tx, id: SessionId)
    requires tx.ReauthenticateWithProof? && id in db.sessions && Ticks(tx.commit)
    ensures var db' := After(RunReauthenticateWithProof(db, tx));
      && id in db'.sessions
      && (db'.sessions[id].provenAt == db.sessions[id].provenAt ||
          (db'.sessions[id].provenAt == Some(tx.commit.stampedAt) && Proves(db, tx, id, tx.commit.stampedAt)))
  {
    hide SessionActive;
    ActiveIsOwn(db, tx.caller, tx.login, tx.lockAt);
  }

  lemma ActiveIsOwn(db: Tables, s: Subject, id: SessionId, now: Time)
    ensures SessionActive(db, s, id, now) ==> s in db.accounts && id in db.sessions && db.sessions[id].subject == s
  {
  }

  lemma ProofMovesWithCode(db: Tables, tx: Tx, id: SessionId)
    requires tx.ReauthenticateWithCode? && id in db.sessions && Ticks(tx.commit)
    ensures var db' := After(RunReauthenticateWithCode(db, tx));
      && id in db'.sessions
      && (db'.sessions[id].provenAt == db.sessions[id].provenAt ||
          (db'.sessions[id].provenAt == Some(tx.commit.stampedAt) && Proves(db, tx, id, tx.commit.stampedAt)))
  {
    hide SubmitCode, SessionActive;
    if tx.caller in db.accounts {
      SubmittedKeys(db, tx.caller, PurposeReauthenticate, tx.code, tx.observedAt, tx.guessAt);
    }
    ActiveIsOwn(db, tx.caller, tx.login, tx.lockAt);
  }

  lemma QueueKeepsSessions(db: Tables, s: Subject, p: Purpose, email: Email, n: NewCode)
    ensures QueueCode(db, s, p, email, n).sessions == db.sessions
  {
  }

  lemma SignUpKeepsProofs(db: Tables, tx: Tx)
    requires tx.SignUp? && tx.session.id !in db.sessions
    ensures ProofsKept(db.sessions, After(RunSignUp(db, tx)).sessions)
  {
    hide QueueCode;
    var created := InsertAccount(db, tx.subject, tx.email, Some(tx.hash), None);
    QueueKeepsSessions(OpenSession(created, tx.subject, tx.session), tx.subject, PurposeVerifyEmail, tx.email,
      tx.issue);
  }

  lemma ProviderLoginKeepsProofs(db: Tables, tx: Tx)
    requires tx.ProviderLogin? && tx.session.id !in db.sessions
    ensures ProofsKept(db.sessions, After(RunProviderLogin(db, tx)).sessions)
  {
    hide QueueCode, IsActive, Retired, OpenSession, InsertAccount, CreateProviderLink;
    if tx.who in db.links { OpeningKeepsProofs(db.sessions, db, db.links[tx.who], tx.session); }
    if tx.usable.Some? {
      var email := tx.usable.value.email;
      var verifiedAt := if tx.usable.value.verified then Some(tx.session.createAt) else None;
      var linked := CreateProviderLink(InsertAccount(db, tx.subject, email, None, verifiedAt), tx.who, tx.subject);
      LinkingKeepsSessions(db, tx.subject, email, verifiedAt, tx.who);
      QueueKeepsSessions(linked, tx.subject, PurposeVerifyEmail, email, tx.issue);
      OpeningKeepsProofs(db.sessions, linked, tx.subject, tx.session);
      OpeningKeepsProofs(db.sessions, QueueCode(linked, tx.subject, PurposeVerifyEmail, email, tx.issue), tx.subject,
        tx.session);
    }
  }

  lemma LinkingKeepsSessions(db: Tables, s: Subject, email: Email, verifiedAt: Option<Time>, who: ProviderIdentity)
    ensures CreateProviderLink(InsertAccount(db, s, email, None, verifiedAt), who, s).sessions == db.sessions
  {
  }

  lemma OpeningKeepsProofs(before: Sessions, db: Tables, s: Subject, session: NewSession)
    requires db.sessions == before && session.id !in before
    ensures ProofsKept(before, OpenSession(db, s, session).sessions)
  {
  }

  lemma IssueLoginKeepsProofs(db: Tables, tx: Tx)
    requires tx.IssueLogin? && tx.session.id !in db.sessions
    ensures ProofsKept(db.sessions, After(RunIssueLogin(db, tx)).sessions)
  {
  }

  lemma RequestsKeepProofs(db: Tables, settled: map<Subject, Time>, now: Time, tx: Tx)
    requires tx.RequestVerificationCode? || tx.RequestClaimCode? || tx.RequestResetCode?
      || tx.RequestReauthenticationCode?
    ensures After(Run(db, tx)).sessions == db.sessions
  {
    hide IssueCode;
    var s := if tx.RequestVerificationCode?
      || tx.RequestReauthenticationCode? then Some(tx.caller) else FindActive(db.accounts, tx.email);
    var p := if tx.RequestVerificationCode? then PurposeVerifyEmail else if tx.RequestClaimCode?
      then PurposeClaimAccount
      else if tx.RequestResetCode? then PurposePasswordReset else PurposeReauthenticate;
    if s.Some? && s.value in db.accounts { IssueKeepsSessions(db, s.value, p, tx.issue); }
  }

  lemma IssueKeepsSessions(db: Tables, s: Subject, p: Purpose, n: NewCode)
    requires s in db.accounts
    ensures IssueCode(db, s, p, n).sessions == db.sessions
  {
  }

  lemma RevocationKeepsProofs(db: Tables, s: Subject, now: Time)
    ensures ProofsKept(db.sessions, Statements.RevokeAccountSessions(db, s, now).sessions)
  {
  }

  lemma ClaimKeepsProofs(db: Tables, settled: map<Subject, Time>, now: Time, tx: Tx)
    requires tx.ClaimAccount? && Fits(db, settled, now, tx)
    ensures ProofsKept(db.sessions, After(RunClaimAccount(db, tx)).sessions)
  {
    hide SubmitCode, RetireAndRevoke;
    var found := FindActive(db.accounts, tx.email);
    if found.Some? {
      var g := SubmitCode(db, found.value, PurposeClaimAccount, tx.code, tx.appNow, tx.guessAt);
      SubmittedKeys(db, found.value, PurposeClaimAccount, tx.code, tx.appNow, tx.guessAt);
      RetireAndRevokeIsPaced(g.db, found.value, tx.writeAt);
      RevocationKeepsProofs(g.db, found.value, tx.writeAt);
    }
  }

  lemma ResetKeepsProofs(db: Tables, now: Time, tx: Tx)
    requires tx.ResetPassword?
    ensures ProofsKept(db.sessions, After(RunResetPassword(db, tx)).sessions)
  {
    hide SubmitCode, ApplyPasswordReset;
    var found := FindActive(db.accounts, tx.email);
    if found.Some? {
      var g := SubmitCode(db, found.value, PurposePasswordReset, tx.code, tx.appNow, tx.guessAt);
      SubmittedKeys(db, found.value, PurposePasswordReset, tx.code, tx.appNow, tx.guessAt);
      if g.Hit? {
        ApplyPasswordResetIsPaced(g.db, found.value, g.id, tx.hash, tx.notice, now, tx.writeAt);
        RevocationKeepsProofs(g.db, found.value, tx.writeAt);
      }
    }
  }

  lemma RotationKeepsProofs(db: Tables, next: TokenHash, id: SessionId, spent: TokenHash, at: Time)
    ensures ProofsKept(db.sessions,
      RotateCurrentRefreshToken(RecordRotatedRefreshToken(db, spent, id), next, id, spent, at).sessions)
    ensures ProofsKept(db.sessions, RevokeRefreshSession(db, id, at).sessions)
  {
  }

  lemma RotateKeepsProofs(db: Tables, tx: Tx)
    requires tx.Rotate?
    ensures ProofsKept(db.sessions, After(RunRotate(db, tx)).sessions)
  {
    hide RotateCurrentRefreshToken, RevokeRefreshSession, CanRotate, Live;
    RotationKeepsProofs(db, tx.next, tx.login, tx.spent, tx.writeAt);
  }

  lemma LogoutKeepsProofs(db: Tables, tx: Tx)
    requires tx.LogoutCurrent? || tx.LogoutAll?
    ensures ProofsKept(db.sessions, if tx.LogoutAll?
      then After(RunLogoutAll(db, tx)).sessions else After(RunLogoutCurrent(db, tx)).sessions)
  {
  }

  lemma ProofMoves(db: Tables, settled: map<Subject, Time>, now: Time, tx: Tx, id: SessionId)
    requires Fits(db, settled, now, tx) && id in db.sessions
    ensures var db' := After(Run(db, tx));
      && id in db'.sessions
      && (db'.sessions[id].provenAt == db.sessions[id].provenAt ||
          (db'.sessions[id].provenAt.Some? && Proves(db, tx, id, db'.sessions[id].provenAt.value)))
  {
    hide Proves, RunReauthenticateWithProof, RunReauthenticateWithCode, RunClaimAccount, RunResetPassword;
    hide RunVerifyEmail;
    hide RunSignUp, RunProviderLogin, RunIssueLogin, RunRotate, RunLogoutCurrent, RunLogoutAll;
    if tx.ReauthenticateWithProof? {
      ProofMovesWithProof(db, tx, id);
    } else if tx.ReauthenticateWithCode? {
      ProofMovesWithCode(db, tx, id);
    } else if tx.ClaimAccount? {
      ClaimKeepsProofs(db, settled, now, tx);
    } else if tx.ResetPassword? {
      ResetKeepsProofs(db, now, tx);
    } else if tx.VerifyEmail? {
      VerifyEmailIsPaced(db, now, tx);
    } else if tx.SignUp? {
      SignUpKeepsProofs(db, tx);
    } else if tx.ProviderLogin? {
      ProviderLoginKeepsProofs(db, tx);
    } else if tx.IssueLogin? {
      IssueLoginKeepsProofs(db, tx);
    } else if tx.Rotate? {
      RotateKeepsProofs(db, tx);
    } else if tx.LogoutCurrent? || tx.LogoutAll? {
      LogoutKeepsProofs(db, tx);
    } else {
      RequestsKeepProofs(db, settled, now, tx);
    }
  }

  // The session was created at `p`, or the action re-authenticated it at `p`.
  ghost predicate ProvenBy(st: State, st': State, a: Action, id: SessionId, p: Time) {
    && a.Transact?
    && ((id !in st.db.sessions && id in st'.db.sessions && st'.db.sessions[id].createdAt == p)
         || Proves(st.db, a.tx, id, p))
  }

  lemma StepProof(st: State, a: Action, id: SessionId)
    requires Inv(st) && Enabled(st, a) && id in Apply(st, a).db.sessions
    ensures Apply(st, a).db.sessions[id].provenAt.Some? ==>
      || (id in st.db.sessions && st.db.sessions[id].provenAt == Apply(st, a).db.sessions[id].provenAt)
      || ProvenBy(st, Apply(st, a), a, id, Apply(st, a).db.sessions[id].provenAt.value)
  {
    hide Run, Locks, Fits, Valid, TimesOk, HoldsValid, OneHoldPerAccount, OutboxOk, PartitionsOk, Proves;
    if !a.Transact? {
      OthersKeepAccounts(st, a);
    } else if id in st.db.sessions {
      ProofMoves(st.db, st.settled, st.now, a.tx, id);
    } else {
      TransactionIsPaced(st.db, st.settled, st.now, a.tx);
    }
  }

  ghost predicate ProvenInRun(states: seq<State>, actions: seq<Action>, n: nat, id: SessionId, p: Time) {
    |states| == |actions| + 1 && n < |states| && exists i ::
      0 <= i < n && ProvenBy(states[i], states[i + 1], actions[i], id, p)
  }

  /**
   In every run the proof time of a session is its creation, or a re-authentication of that session that committed at
   that time.
   */
  lemma {:induction false} ProofsComeFromTheRun(states: seq<State>, actions: seq<Action>, n: nat, id: SessionId)
    requires IsRun(states, actions) && n < |states| && id in states[n].db.sessions
    requires states[n].db.sessions[id].provenAt.Some?
    ensures ProvenInRun(states, actions, n, id, states[n].db.sessions[id].provenAt.value)
  {
    hide Enabled, Apply, Inv, ProvenBy;
    if n > 0 {
      RunKeeps(states, actions, n - 1);
      StepProof(states[n - 1], actions[n - 1], id);
      var p := states[n].db.sessions[id].provenAt.value;
      if ProvenBy(states[n - 1], states[n], actions[n - 1], id, p) {
      } else {
        ProofsComeFromTheRun(states, actions, n - 1, id);
        var i :| 0 <= i < n - 1 && ProvenBy(states[i], states[i + 1], actions[i], id, p);
        assert 0 <= i < n && ProvenBy(states[i], states[i + 1], actions[i], id, p);
      }
    }
  }

  /**
   Every commit that RequireReauthentication admitted has a proof of the same session,
   its creation or a committed re-authentication, at some p with p <= t < p + 10 minutes,
   and t before both expiries of the session.
   */
  lemma GuardedCommitHasProof(
    states: seq<State>, actions: seq<Action>, n: nat, s: Subject, id: SessionId, lockAt: Time, observedAt: Time,
    later: seq<Option<Time>>, requested: Option<SessionId>, c: Reauthentication.CommitClock)
    requires IsRun(states, actions) && n < |states| && SessionLocked(states[n].db, s, id, lockAt, observedAt)
    requires IsOpen(WindowOf(states[n].db.sessions[id]), observedAt) && observedAt <= c.checkedAt
    requires forall k :: 0 <= k < |later| ==> later[k].Some?
    requires MayCommit(states[n].db.sessions, Some(id),
      LowerAll(ExpiresAt(WindowOf(states[n].db.sessions[id])), later), requested, c)
    ensures exists p ::
      && ProvenInRun(states, actions, n, id, p) && p <= c.checkedAt < p + 10 * MINUTE
      && c.checkedAt < states[n].db.sessions[id].idleExpiresAt
      && c.checkedAt < states[n].db.sessions[id].absoluteExpiresAt
  {
    hide IsRun, ProvenInRun, Inv;
    var w := WindowOf(states[n].db.sessions[id]);
    GuardedCommitIsTimely(w, observedAt, later, states[n].db.sessions, Some(id), requested, c);
    ProofsComeFromTheRun(states, actions, n, id);
    assert ProvenInRun(states, actions, n, id, w.provenAt.value);
  }
}
