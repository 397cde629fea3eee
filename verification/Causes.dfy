/**
 Why a session or an account changed: the exact row after every transaction, and over
 every run the requests that ended a session or retired an account.
 */
module Causes {
  import opened Options
  import opened Clock
  import opened Schema
  import opened Statements
  import opened Consistency
  import opened Transactions
  import opened Pacing
  import opened Effects
  import opened System
  import opened SystemInvariant
  import opened AccountTheorems
  import opened SessionTheorems
  import opened Outcomes

  // ----- Sessions -----

  ghost predicate Accepts(db: Tables, tx: Tx) { ReplyOf(Run(db, tx)) == Accepted }

  // The request ends the live session: a logout of it, a logout or a reset or a claim of its account, or a replay of
  // its tokens.
  ghost predicate Ends(db: Tables, tx: Tx, id: SessionId) {
    && id in db.sessions && db.sessions[id].revokedAt.None?
    && var s := db.sessions[id].subject;
    || (tx.LogoutCurrent? && tx.login == id && Accepts(db, tx))
    || (tx.LogoutAll? && tx.caller == s && Accepts(db, tx))
    || (tx.ResetPassword? && OwnsEmail(db, s, tx.email) && Accepts(db, tx))
    || (tx.ClaimAccount? && OwnsEmail(db, s, tx.email) && Accepts(db, tx))
    || (tx.Rotate? && tx.login == id && ReplyOf(Run(db, tx)) == Replayed)
  }

  // The session after the request: ended, refreshed, proven, or as it was.
  ghost function SessionAfter(db: Tables, tx: Tx, id: SessionId): Session
    requires id in db.sessions
  {
    var s := db.sessions[id];
    if Ends(db, tx, id) then s.(revokedAt := Some(tx.writeAt))
    else if tx.Rotate? && tx.login == id && Accepts(db, tx) then Refreshed(s, tx.next, tx.writeAt)
    else if tx.ReauthenticateWithProof? && tx.login == id && Accepts(db, tx) && !ProvenLately(s, tx.observedAt) then
      s.(provenAt := Some(tx.commit.stampedAt))
    else if tx.ReauthenticateWithCode? && tx.login == id && Accepts(db, tx) && !ProvenLately(s, tx.windowAt) then
      s.(provenAt := Some(tx.commit.stampedAt))
    else s
  }

  // The account after the request: verified, retired, with a new password, or as it was.
  ghost function AccountAfter(db: Tables, tx: Tx, s: Subject): Account
    requires s in db.accounts
  {
    var a := db.accounts[s];
    if tx.VerifyEmail? && tx.caller == s && Accepts(db, tx)
      && a.verifiedAt.None? then a.(verifiedAt := Some(tx.writeAt))
    else if tx.ClaimAccount? && OwnsEmail(db, s, tx.email) && Accepts(db, tx) then a.(retiredAt := Some(tx.writeAt))
    else if tx.ResetPassword? && OwnsEmail(db, s, tx.email) && Accepts(db, tx) then a.(passwordHash := Some(tx.hash))
    else a
  }

  ghost predicate RowsAfter(db: Tables, tx: Tx, db': Tables) {
    && (forall id :: id in db.sessions ==> id in db'.sessions && db'.sessions[id] == SessionAfter(db, tx, id))
    && (forall s :: s in db.accounts ==> s in db'.accounts && db'.accounts[s] == AccountAfter(db, tx, s))
  }

  // The rows that were there stay.
  ghost predicate Keeps(db: Tables, db': Tables) {
    && (forall id :: id in db.sessions ==> id in db'.sessions && db'.sessions[id] == db.sessions[id])
    && (forall s :: s in db.accounts ==> s in db'.accounts && db'.accounts[s] == db.accounts[s])
  }

  lemma KeepingIsAfter(db: Tables, tx: Tx, db': Tables)
    requires Keeps(db, db')
    requires tx.SignUp? || tx.ProviderLogin? || tx.IssueLogin? || tx.RequestVerificationCode? || tx.RequestClaimCode? ||
      tx.RequestResetCode? || tx.RequestReauthenticationCode?
    ensures RowsAfter(db, tx, db')
  {
    hide Run, OwnsEmail;
  }

  lemma SignUpRows(db: Tables, settled: map<Subject, Time>, now: Time, tx: Tx)
    requires Valid(db) && Fits(db, settled, now, tx) && tx.SignUp?
    ensures RowsAfter(db, tx, After(RunSignUp(db, tx)))
  {
    SignUpOutcome(db, settled, now, tx);
    assert tx.subject !in db.accounts && tx.session.id !in db.sessions;
    hide Valid, Fits, RunSignUp, CodeQueued, OwnsEmail, RowsAfter, AddsCode, FirstRow;
    SignUpKeepsRows(db, tx, After(RunSignUp(db, tx)));
    KeepingIsAfter(db, tx, After(RunSignUp(db, tx)));
  }

  lemma SignUpKeepsRows(db: Tables, tx: Tx, db': Tables)
    requires tx.SignUp? && tx.subject !in db.accounts && tx.session.id !in db.sessions
    requires db' == db || AddsCode(
      db.(accounts := db.accounts[tx.subject := Account(tx.email, Some(tx.hash), None, None)],
          sessions := db.sessions[tx.session.id := FirstRow(tx.subject, tx.session)]),
      db', tx.subject, PurposeVerifyEmail, tx.email, tx.issue)
    ensures Keeps(db, db')
  {
    hide FirstRow;
  }

  lemma NewAccountKeeps(db: Tables, tx: Tx, db': Tables)
    requires tx.ProviderLogin? && tx.usable.Some? && tx.subject !in db.accounts && tx.session.id !in db.sessions
    requires db' == ProviderTables(db, tx) ||
      AddsCode(ProviderTables(db, tx), db', tx.subject, PurposeVerifyEmail, tx.usable.value.email, tx.issue)
    ensures Keeps(db, db')
  {
    assert db'.sessions == db.sessions[tx.session.id := FirstRow(tx.subject, tx.session)];
    hide FirstRow;
  }

  lemma ProviderLoginRows(db: Tables, settled: map<Subject, Time>, now: Time, tx: Tx)
    requires Valid(db) && Fits(db, settled, now, tx) && tx.ProviderLogin?
    ensures RowsAfter(db, tx, After(RunProviderLogin(db, tx)))
  {
    assert tx.subject !in db.accounts && tx.session.id !in db.sessions;
    hide Valid, Fits, RunProviderLogin, CodeQueued, RowsAfter, FirstRow, ProviderTables, AddsCode, EmailIsFree;
    hide IsLinked;
    ProviderLoginOutcome(db, tx);
    if tx.who !in db.links && ReplyOf(RunProviderLogin(db, tx)) == Accepted && !IsLinked(db, tx.who) {
      NewProviderAccountOutcome(db, settled, now, tx);
      NewAccountKeeps(db, tx, After(RunProviderLogin(db, tx)));
    }
    LinkedNames(db, tx);
    KeepingIsAfter(db, tx, After(RunProviderLogin(db, tx)));
  }

  lemma LinkedNames(db: Tables, tx: Tx)
    ensures tx.ProviderLogin? && IsLinked(db, tx.who) ==> tx.who in db.links
  {
  }

  lemma LoginRows(db: Tables, settled: map<Subject, Time>, now: Time, tx: Tx)
    requires Fits(db, settled, now, tx) && tx.IssueLogin?
    ensures RowsAfter(db, tx, After(RunIssueLogin(db, tx)))
  {
    LoginOutcome(db, tx);
    hide RunIssueLogin, Run;
  }

  lemma IssueKeepsRows(db: Tables, s: Subject, p: Purpose, n: NewCode)
    requires s in db.accounts
    ensures IssueCode(db, s, p, n).sessions == db.sessions && IssueCode(db, s, p, n).accounts == db.accounts
  {
    IssueIssues(db, s, p, n);
    hide IssueCode;
  }

  lemma RequestKeepsRows(db: Tables, tx: Tx)
    requires tx.RequestVerificationCode? || tx.RequestClaimCode? || tx.RequestResetCode?
      || tx.RequestReauthenticationCode?
    ensures After(Run(db, tx)).sessions == db.sessions && After(Run(db, tx)).accounts == db.accounts
  {
    hide IssueCode, CanIssueCode, SessionActive, RunSignUp, RunProviderLogin;
    forall s, p | s in db.accounts
      ensures IssueCode(db, s, p, tx.issue).sessions == db.sessions
      ensures IssueCode(db, s, p, tx.issue).accounts == db.accounts
    {
      IssueKeepsRows(db, s, p, tx.issue);
    }
    if tx.RequestVerificationCode? || tx.RequestReauthenticationCode? {
      ActiveIsSignedIn(db, tx.caller, tx.login, tx.lockAt);
    }
  }

  lemma RequestRows(db: Tables, tx: Tx)
    requires tx.RequestVerificationCode? || tx.RequestClaimCode? || tx.RequestResetCode?
      || tx.RequestReauthenticationCode?
    ensures RowsAfter(db, tx, After(Run(db, tx)))
  {
    RequestKeepsRows(db, tx);
    hide Run;
  }

  lemma VerifyRows(db: Tables, tx: Tx)
    requires Valid(db) && tx.VerifyEmail?
    ensures RowsAfter(db, tx, After(RunVerifyEmail(db, tx)))
  {
    hide RunVerifyEmail;
    assert Run(db, tx) == RunVerifyEmail(db, tx);
    hide Run, Valid, RightCode, OwnsEmail, IsRight, IsWrong;
    VerifyOutcome(db, tx);
    GuessKeepsRows(db, After(RunVerifyEmail(db, tx)), tx.caller, PurposeVerifyEmail, tx.code, tx.appNow, tx.guessAt);
    hide CountsGuess, SixDigits;
  }

  lemma GuessKeepsRows(
    db: Tables, db': Tables, s: Subject, p: Purpose, code: string, appNow: Time, guessAt: Time)
    ensures CountsGuess(db, db', s, p, code, appNow, guessAt) ==>
      db'.sessions == db.sessions && db'.accounts == db.accounts
  {
  }

  // A session's account owns its email, or nobody does.
  lemma OwnerIsUnique(db: Tables, email: Email, s: Subject, t: Subject)
    requires Valid(db) && OwnsEmail(db, s, email) && OwnsEmail(db, t, email)
    ensures s == t
  {
    hide SessionsValid, TokensValid, ChallengesValid, OneCurrent, DeliveriesValid, DeliveriesQueued, EventsValid;
    hide LinksValid, NoticesValid;
  }

  lemma ClaimedRows(before: Tables, after: Tables, tx: Tx, s: Subject, id: ChallengeId)
    requires tx.ClaimAccount? && s in before.accounts && id in before.challenges && Claimed(before, after, tx, s, id)
    requires tx.subject !in before.accounts && tx.session.id !in before.sessions
    ensures forall k :: k in before.sessions ==>
      k in after.sessions && after.sessions[k] == EndedWith(before.sessions[k], s, tx.writeAt)
    ensures forall t :: t in before.accounts ==>
      t in after.accounts &&
      after.accounts[t] == if t == s then before.accounts[t].(retiredAt := Some(tx.writeAt)) else before.accounts[t]
  {
    var ended :| SignsOut(before.sessions, ended, s, tx.writeAt) &&
      after.sessions == ended[tx.session.id := FirstRow(tx.subject, tx.session)];
    hide Supersedes, FirstRow;
  }

  // The row of a session when its account `s` is signed out.
  function EndedWith(row: Session, s: Subject, at: Time): Session {
    if row.subject == s && row.revokedAt.None? then row.(revokedAt := Some(at)) else row
  }

  lemma ClaimRows(db: Tables, settled: map<Subject, Time>, now: Time, tx: Tx)
    requires Valid(db) && Fits(db, settled, now, tx) && tx.ClaimAccount?
    ensures RowsAfter(db, tx, After(RunClaimAccount(db, tx)))
  {
    assert tx.subject !in db.accounts && tx.session.id !in db.sessions;
    hide RunClaimAccount;
    assert Run(db, tx) == RunClaimAccount(db, tx);
    hide Run, Valid, Fits, RightCode, OwnsEmail, Claimed, RowsAfter;
    var r, db' := RunClaimAccount(db, tx), After(RunClaimAccount(db, tx));
    if s :| OwnsEmail(db, s, tx.email) {
      OwnerExists(db, tx.email, s);
      ClaimOutcome(db, settled, now, tx, s);
      GuessKeepsRows(db, db', s, PurposeClaimAccount, tx.code, tx.appNow, tx.guessAt);
      if ReplyOf(r) == Accepted {
        RightCodeRuns(db, tx, s);
        var id :| IsRight(db, s, PurposeClaimAccount, tx.code, tx.appNow, tx.guessAt, id)
          && Claimed(db, db', tx, s, id);
        ClaimedRows(db, db', tx, s, id);
      }
      hide CountsGuess, IsRight;
      ClaimIsAfter(db, tx, db', s, ReplyOf(r) == Accepted);
    } else {
      ClaimOutcome(db, settled, now, tx, tx.subject);
      ClaimIsAfter(db, tx, db', tx.subject, false);
    }
  }

  lemma OwnerExists(db: Tables, email: Email, s: Subject)
    requires OwnsEmail(db, s, email)
    ensures s in db.accounts
  {
  }

  lemma RightCodeRuns(db: Tables, tx: Tx, s: Subject)
    requires tx.ClaimAccount? && s in db.accounts
    ensures RightCode(db, s, PurposeClaimAccount, tx.code, tx.appNow, tx.guessAt) ==>
      exists id :: IsRight(db, s, PurposeClaimAccount, tx.code, tx.appNow, tx.guessAt, id)
  {
  }

  lemma ClaimIsAfter(db: Tables, tx: Tx, db': Tables, s: Subject, accepted: bool)
    requires Valid(db) && tx.ClaimAccount? && accepted == Accepts(db, tx) && (accepted ==> OwnsEmail(db, s, tx.email))
    requires forall k :: k in db.sessions ==>
      k in db'.sessions &&
      db'.sessions[k] == if accepted then EndedWith(db.sessions[k], s, tx.writeAt) else db.sessions[k]
    requires forall t :: t in db.accounts ==>
      t in db'.accounts &&
      db'.accounts[t] == if accepted && t == s then db.accounts[t].(retiredAt := Some(tx.writeAt)) else db.accounts[t]
    ensures RowsAfter(db, tx, db')
  {
    hide Run, Valid, OwnsEmail;
    forall t | accepted && OwnsEmail(db, t, tx.email) ensures t == s {
      OwnerIsUnique(db, tx.email, s, t);
    }
  }

  lemma ResetRows(db: Tables, tx: Tx)
    requires Valid(db) && tx.ResetPassword?
    ensures RowsAfter(db, tx, After(RunResetPassword(db, tx)))
  {
    hide RunResetPassword;
    assert Run(db, tx) == RunResetPassword(db, tx);
    hide Run, Valid, RightCode, OwnsEmail, IsRight;
    var db' := After(RunResetPassword(db, tx));
    if s :| OwnsEmail(db, s, tx.email) {
      ResetOutcome(db, tx, s);
      forall t | OwnsEmail(db, t, tx.email) ensures t == s {
        OwnerIsUnique(db, tx.email, s, t);
      }
      GuessKeepsRows(db, db', s, PurposePasswordReset, tx.code, tx.appNow, tx.guessAt);
      hide CountsGuess;
    } else {
      ResetOutcome(db, tx, 0);
    }
  }

  lemma ProofRows(db: Tables, tx: Tx)
    requires tx.ReauthenticateWithProof?
    ensures RowsAfter(db, tx, After(RunReauthenticateWithProof(db, tx)))
  {
    ReauthenticationOpensWindow(db, tx);
    hide RunReauthenticateWithProof;
    assert Run(db, tx) == RunReauthenticateWithProof(db, tx);
    hide Run, CommitsAlive;
  }

  // What a re-authentication makes of the sessions and accounts.
  ghost predicate ProvesRow(db: Tables, db': Tables, id: SessionId, t: Time, stampedAt: Time)
    requires id in db.sessions
  {
    && db'.accounts == db.accounts
    && db'.sessions == if ProvenLately(db.sessions[id], t) then db.sessions
                       else db.sessions[id := db.sessions[id].(provenAt := Some(stampedAt))]
  }

  lemma CodeProves(db: Tables, tx: Tx)
    requires Valid(db) && tx.ReauthenticateWithCode?
    ensures var r := RunReauthenticateWithCode(db, tx);
      if ReplyOf(r) == Accepted then
        tx.login in db.sessions && ProvesRow(db, After(r), tx.login, tx.windowAt, tx.commit.stampedAt)
      else After(r).sessions == db.sessions && After(r).accounts == db.accounts
  {
    CodeReauthenticationOutcome(db, tx);
    hide RunReauthenticateWithCode, Valid, RightCode, CommitsInCode, Alive;
    GuessKeepsRows(db, After(RunReauthenticateWithCode(db, tx)), tx.caller, PurposeReauthenticate, tx.code,
      tx.observedAt, tx.guessAt);
    hide CountsGuess, ProvenLately;
  }

  lemma CodeRows(db: Tables, tx: Tx)
    requires Valid(db) && tx.ReauthenticateWithCode?
    ensures RowsAfter(db, tx, After(RunReauthenticateWithCode(db, tx)))
  {
    CodeProves(db, tx);
    hide RunReauthenticateWithCode, Valid, ProvenLately;
    assert Run(db, tx) == RunReauthenticateWithCode(db, tx);
    hide Run;
  }

  lemma RotateSessions(db: Tables, settled: map<Subject, Time>, now: Time, tx: Tx)
    requires Valid(db) && Fits(db, settled, now, tx) && tx.Rotate?
    ensures var r, id := RunRotate(db, tx), tx.login;
      && After(r).accounts == db.accounts
      && if ReplyOf(r) == Replayed then
           id in db.sessions && db.sessions[id].revokedAt.None?
             && EndsOne(db.sessions, After(r).sessions, id, tx.writeAt)
         else if ReplyOf(r) == Accepted then
           id in db.sessions && After(r).sessions == db.sessions[id := Refreshed(db.sessions[id], tx.next, tx.writeAt)]
         else After(r).sessions == db.sessions
  {
    RotationOutcome(db, settled, now, tx);
    hide RunRotate, Valid, Fits, EndsOne, Refreshed;
  }

  lemma RotateRows(db: Tables, settled: map<Subject, Time>, now: Time, tx: Tx)
    requires Valid(db) && Fits(db, settled, now, tx) && tx.Rotate?
    ensures RowsAfter(db, tx, After(RunRotate(db, tx)))
  {
    RotateSessions(db, settled, now, tx);
    hide RunRotate, Refreshed;
    assert Run(db, tx) == RunRotate(db, tx);
    hide Run, Valid, Fits;
  }

  lemma LogoutRows(db: Tables, tx: Tx)
    requires tx.LogoutCurrent? || tx.LogoutAll?
    ensures RowsAfter(db, tx, After(Run(db, tx)))
  {
    LogoutOutcome(db, tx);
    hide RunLogoutCurrent, RunLogoutAll;
    assert Run(db, tx) == if tx.LogoutCurrent? then RunLogoutCurrent(db, tx) else RunLogoutAll(db, tx);
    hide Run;
  }

  /** After every transaction each session and each account is exactly what the request made of it. */
  lemma TransactionRows(db: Tables, settled: map<Subject, Time>, now: Time, tx: Tx)
    requires Valid(db) && Fits(db, settled, now, tx)
    ensures RowsAfter(db, tx, After(Run(db, tx)))
  {
    hide Valid, Fits, RowsAfter, RunSignUp, RunProviderLogin, RunIssueLogin, RunVerifyEmail, RunClaimAccount;
    hide RunResetPassword, RunReauthenticateWithProof, RunReauthenticateWithCode, RunRotate, RunLogoutCurrent;
    hide RunLogoutAll;
    hide RunRequestVerificationCode, RunRequestClaimCode, RunRequestResetCode, RunRequestReauthenticationCode;
    if tx.SignUp? {
      SignUpRows(db, settled, now, tx);
    } else if tx.ProviderLogin? {
      ProviderLoginRows(db, settled, now, tx);
    } else if tx.IssueLogin? {
      LoginRows(db, settled, now, tx);
    } else if tx.VerifyEmail? {
      VerifyRows(db, tx);
    } else if tx.ClaimAccount? {
      ClaimRows(db, settled, now, tx);
    } else if tx.ResetPassword? {
      ResetRows(db, tx);
    } else if tx.ReauthenticateWithProof? {
      ProofRows(db, tx);
    } else if tx.ReauthenticateWithCode? {
      CodeRows(db, tx);
    } else if tx.Rotate? {
      RotateRows(db, settled, now, tx);
    } else if tx.LogoutCurrent? || tx.LogoutAll? {
      LogoutRows(db, tx);
    } else {
      RequestRows(db, tx);
    }
  }

  /** A session changes only under the lock of its account, or by its own logout. */
  lemma SessionChangesAreLocked(db: Tables, settled: map<Subject, Time>, now: Time, tx: Tx, id: SessionId)
    requires Valid(db) && Fits(db, settled, now, tx) && id in db.sessions
    ensures id in After(Run(db, tx)).sessions
    ensures After(Run(db, tx)).sessions[id] != db.sessions[id] ==>
      db.sessions[id].subject in Locks(db, tx) || (tx.LogoutCurrent? && tx.login == id)
  {
    TransactionRows(db, settled, now, tx);
    OwnerIsLocked(db, tx, db.sessions[id].subject);
    if tx.ReauthenticateWithCode? || tx.ReauthenticateWithProof? { AcceptedCallerHolds(db, tx); }
    hide Valid, Fits, Run, OwnsEmail, Locks;
  }

  lemma OwnerIsLocked(db: Tables, tx: Tx, s: Subject)
    requires Valid(db)
    ensures (tx.ClaimAccount? || tx.ResetPassword?) && OwnsEmail(db, s, tx.email) ==> s in Locks(db, tx)
    ensures (tx.LogoutAll? || tx.ReauthenticateWithCode? || tx.ReauthenticateWithProof?) && tx.caller == s ==>
      s in Locks(db, tx)
    ensures tx.Rotate? && tx.login in db.sessions && db.sessions[tx.login].subject == s ==> s in Locks(db, tx)
  {
    if tx.ClaimAccount? || tx.ResetPassword? { OwnerIsFound(db, tx.email, s); }
    hide Valid, Schema.FindActive;
  }

  lemma AcceptedCallerHolds(db: Tables, tx: Tx)
    requires Valid(db) && (tx.ReauthenticateWithCode? || tx.ReauthenticateWithProof?)
    ensures Accepts(db, tx) ==> tx.login in db.sessions && db.sessions[tx.login].subject == tx.caller
  {
    hide RunReauthenticateWithCode, RunReauthenticateWithProof;
    if tx.ReauthenticateWithCode? {
      assert Run(db, tx) == RunReauthenticateWithCode(db, tx);
      CodeReauthenticationOutcome(db, tx);
    } else {
      assert Run(db, tx) == RunReauthenticateWithProof(db, tx);
      ReauthenticationOpensWindow(db, tx);
    }
    hide Run, Valid, RightCode, CountsGuess, IsRight, CommitsInCode, Alive;
  }

  // ----- Over runs -----

  ghost predicate EndsSession(st: State, a: Action, id: SessionId) {
    a.Transact? && Ends(st.db, a.tx, id)
  }

  lemma StepEnds(st: State, a: Action, id: SessionId)
    requires Inv(st) && Enabled(st, a) && id in Apply(st, a).db.sessions
    ensures Apply(st, a).db.sessions[id].revokedAt.Some? <==>
      (id in st.db.sessions && st.db.sessions[id].revokedAt.Some?) || EndsSession(st, a, id)
  {
    hide Run, Locks, Fits, Valid, TimesOk, HoldsValid, OneHoldPerAccount, OutboxOk, PartitionsOk, Ends;
    if !a.Transact? {
      OthersKeepAccounts(st, a);
    } else if id in st.db.sessions {
      TransactionRows(st.db, st.settled, st.now, a.tx);
      EndsLive(st.db, a.tx, id);
    } else {
      EndsLive(st.db, a.tx, id);
      TransactionIsPaced(st.db, st.settled, st.now, a.tx);
    }
  }

  lemma EndsLive(db: Tables, tx: Tx, id: SessionId)
    ensures Ends(db, tx, id) ==> id in db.sessions && db.sessions[id].revokedAt.None?
  {
  }

  /** In every run a session has ended if and only if a request of the run ended it. */
  lemma {:induction false} SessionsEndByRequest(states: seq<State>, actions: seq<Action>, n: nat, id: SessionId)
    requires IsRun(states, actions) && n < |states| && id in states[n].db.sessions
    ensures states[n].db.sessions[id].revokedAt.Some? <==>
      exists i :: 0 <= i < n && EndsSession(states[i], actions[i], id)
  {
    hide Enabled, Apply, Inv, EndsSession;
    if n > 0 {
      RunKeeps(states, actions, n - 1);
      StepEnds(states[n - 1], actions[n - 1], id);
      if id in states[n - 1].db.sessions {
        SessionsEndByRequest(states, actions, n - 1, id);
      } else {
        forall i | 0 <= i < n - 1 && EndsSession(states[i], actions[i], id) ensures false {
          EndsNothingNew(states, actions, i, n - 1, id);
        }
      }
    }
  }

  // A request ends only a session that is there, and that stays.
  lemma EndsNothingNew(states: seq<State>, actions: seq<Action>, i: nat, j: nat, id: SessionId)
    requires IsRun(states, actions) && i <= j < |states| && i < |actions| && EndsSession(states[i], actions[i], id)
    ensures id in states[j].db.sessions
  {
    EndsLive(states[i].db, actions[i].tx, id);
    hide Ends, Enabled, Apply;
    RowsStay(states, actions, i, j, id);
  }

  ghost predicate RetiresAccount(st: State, a: Action, s: Subject) {
    a.Transact? && a.tx.ClaimAccount? && OwnsEmail(st.db, s, a.tx.email) && Accepts(st.db, a.tx)
  }

  lemma StepRetires(st: State, a: Action, s: Subject)
    requires Inv(st) && Enabled(st, a) && s in st.db.accounts
    ensures s in Apply(st, a).db.accounts
    ensures Apply(st, a).db.accounts[s].retiredAt.Some? <==>
      st.db.accounts[s].retiredAt.Some? || RetiresAccount(st, a, s)
  {
    hide Run, Locks, Fits, Valid, TimesOk, HoldsValid, OneHoldPerAccount, OutboxOk, PartitionsOk, OwnsEmail;
    if a.Transact? {
      TransactionRows(st.db, st.settled, st.now, a.tx);
    } else {
      OthersKeepAccounts(st, a);
    }
  }

  /**
   In every run, from any state in which an account is there, it is retired later if and only if a claim of its email
   was accepted meanwhile.
   */
  lemma {:induction false} AccountsRetireByClaim(
    states: seq<State>, actions: seq<Action>, i: nat, j: nat, s: Subject)
    requires IsRun(states, actions) && i <= j < |states| && s in states[i].db.accounts
    ensures s in states[j].db.accounts
    ensures states[j].db.accounts[s].retiredAt.Some? <==>
      states[i].db.accounts[s].retiredAt.Some? || exists k :: i <= k < j && RetiresAccount(states[k], actions[k], s)
    decreases j - i
  {
    hide Enabled, Apply, Inv, RetiresAccount;
    if i < j {
      AccountsRetireByClaim(states, actions, i, j - 1, s);
      RunKeeps(states, actions, j - 1);
      StepRetires(states[j - 1], actions[j - 1], s);
    }
  }
}
