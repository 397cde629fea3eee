/**
 What each account transaction does for its caller: exactly when it is accepted, and
 what then holds in the committed tables.
 */
module Outcomes {
  import opened Options
  import opened Clock
  import opened Schema
  import opened Statements
  import opened Consistency
  import opened Reauthentication
  import opened ChallengeCheck
  import opened Transactions
  import opened TransactionProofs
  import opened Pacing
  import opened Effects
  import opened ChallengeTheorems

  // ----- Codes -----

  /**
   A submission consumes the challenge exactly with the right code; a wrong one costs a
   guess; nothing else changes.
   */
  lemma SubmissionEffect(db: Tables, s: Subject, p: Purpose, code: string, appNow: Time, guessAt: Time)
    requires Valid(db) && s in db.accounts
    ensures var g := SubmitCode(db, s, p, code, appNow, guessAt);
      && (g.Hit? <==> RightCode(db, s, p, code, appNow, guessAt))
      && (g.Hit? ==> IsRight(db, s, p, code, appNow, guessAt, g.id) && g.db == Spent(db, g.id, guessAt))
      && (g.Missed? ==> CountsGuess(db, g.db, s, p, code, appNow, guessAt))
  {
    var found := FindCurrent(db.challenges, s, p);
    SixDigitsAreValid(code);
    hide Valid, SubmitCode, Schema.FindCurrent, SixDigits, ValidVerificationCode;
    if found.None? || !ValidVerificationCode(code) {
      NothingToSubmitTo(db, s, p, code, appNow, guessAt);
      forall id ensures !IsRight(db, s, p, code, appNow, guessAt, id) && !IsWrong(db, s, p, code, appNow, guessAt, id) {
        if OpenCode(db, s, p, id, appNow, guessAt) {
          assert IsCurrentChallenge(db.challenges, id, s, p);
          StoredCodeIsWellFormed(db, id);
        }
      }
    } else {
      SubmissionOutcome(db, s, p, found.value, code, appNow, guessAt);
      forall id | OpenCode(db, s, p, id, appNow, guessAt) ensures id == found.value {
        OnlyOneCurrent(db, id, found.value);
      }
      assert IsRight(db, s, p, code, appNow, guessAt, found.value) || !OpenCode(db, s, p, found.value, appNow, guessAt)
        || IsWrong(db, s, p, code, appNow, guessAt, found.value);
    }
  }

  lemma StoredCodeIsWellFormed(db: Tables, id: ChallengeId)
    requires Valid(db) && id in db.challenges
    ensures ValidVerificationCode(db.challenges[id].verifier.code)
  {
    hide AccountsValid, SessionsValid, TokensValid, OneCurrent, DeliveriesValid, DeliveriesQueued, EventsValid;
    hide LinksValid, NoticesValid;
    assert ChallengeValid(db.accounts[db.challenges[id].subject], db.challenges[id]);
  }

  // The new challenge is the account's only current one, has its material and an event to publish, and would be sent
  // until it expires.
  ghost predicate CodeQueued(db: Tables, s: Subject, p: Purpose, n: NewCode) {
    && IsCurrentChallenge(db.challenges, n.id, s, p) && FindCurrent(db.challenges, s, p) == Some(n.id)
    && db.challenges[n.id].verifier.code == n.code && db.challenges[n.id].issuedAt == n.createAt
    && n.id in db.deliveries && db.deliveries[n.id] == Seal(n.id, db.challenges[n.id])
    && n.event in db.events && db.events[n.event].challenge == n.id && db.events[n.event].publishedAt.None?
    && db.events[n.event].claim.None?
    && s in db.accounts
    && forall t :: t < n.createAt + 10 * MINUTE ==> IsCurrentDelivery(db.accounts[s], db.challenges[n.id], t)
  }

  lemma QueuedIsSendable(db: Tables, s: Subject, p: Purpose, n: NewCode)
    requires s in db.accounts && !Retired(db.accounts[s]) && (NeedsVerifiedEmail(p) <==> Verified(db.accounts[s]))
    requires OneCurrent(QueueCode(db, s, p, db.accounts[s].email, n).challenges)
    ensures CodeQueued(QueueCode(db, s, p, db.accounts[s].email, n), s, p, n)
  {
    var db' := QueueCode(db, s, p, db.accounts[s].email, n);
    assert IsCurrentChallenge(db'.challenges, n.id, s, p);
    TheCurrentOne(db', n.id, s, p);
  }

  /** Issuing replaces every earlier code of the purpose and queues the new one. */
  lemma IssueQueues(db: Tables, s: Subject, p: Purpose, n: NewCode)
    requires Valid(db) && FreshCode(db, n) && s in db.accounts && !Retired(db.accounts[s])
    requires NeedsVerifiedEmail(p) <==> Verified(db.accounts[s])
    ensures CodeQueued(IssueCode(db, s, p, n), s, p, n)
    ensures NeedsVerifiedEmail(p) ==> forall id ::
      id in IssueCode(db, s, p, n).deliveries && id in db.challenges && db.challenges[id].subject == s
        && db.challenges[id].purpose == p
      ==> db.challenges[id].consumedAt.Some?
  {
    IssueCodeKeeps(db, s, p, n);
    assert OneCurrent(IssueCode(db, s, p, n).challenges);
    hide Valid, Follows, CodeQueued;
    ReplacingKeepsAccounts(db, s, p, n.replaceAt);
    QueuedIsSendable(ReplaceCode(db, s, p, n.replaceAt), s, p, n);
  }

  lemma ReplacingKeepsAccounts(db: Tables, s: Subject, p: Purpose, now: Time)
    ensures ReplaceCode(db, s, p, now).accounts == db.accounts
  {
  }

  // A code request within the rate, of an account that the purpose fits.
  lemma IssueOutcome(
    db: Tables, settled: map<Subject, Time>, now: Time, s: Subject, p: Purpose, checkAt: Time, n: NewCode)
    requires Valid(db) && FreshCode(db, n) && s in db.accounts && !Retired(db.accounts[s])
    requires NeedsVerifiedEmail(p) <==> Verified(db.accounts[s])
    requires AtMostFiveAnHour(db.challenges) && IssuedBefore(db.challenges, settled) && Timely(settled, now, s, checkAt)
    ensures CanIssueCode(db, s, checkAt) <==> RateAllows(db.challenges, s, checkAt)
    ensures Issues(db, IssueCode(db, s, p, n), s, p, db.accounts[s].email, n)
    ensures CodeQueued(IssueCode(db, s, p, n), s, p, n)
  {
    CheckIsTheRate(db, s, checkAt);
    hide CanIssueCode, RateAllows, Valid, Issues, CodeQueued;
    IssueIssues(db, s, p, n);
    IssueQueues(db, s, p, n);
  }

  /**
   A verification code is issued exactly for a signed-in caller whose email is not verified,
   when one more code keeps the rate; every other request is refused and changes nothing.
   */
  lemma VerificationRequestOutcome(db: Tables, settled: map<Subject, Time>, now: Time, tx: Tx)
    requires Valid(db) && tx.RequestVerificationCode? && Fits(db, settled, now, tx)
    requires AtMostFiveAnHour(db.challenges) && IssuedBefore(db.challenges, settled)
    ensures var r, s := RunRequestVerificationCode(db, tx), tx.caller;
      && ReplyOf(r) == (
           if !SignedIn(db, s, tx.login, tx.lockAt) then Refused(Unauthenticated)
           else if db.accounts[s].verifiedAt.Some? then Refused(AlreadyVerified)
           else if !RateAllows(db.challenges, s, tx.checkAt) then Refused(RateLimited)
           else Accepted)
      && (ReplyOf(r) == Accepted ==>
            && Issues(db, After(r), s, PurposeVerifyEmail, db.accounts[s].email, tx.issue)
            && CodeQueued(After(r), s, PurposeVerifyEmail, tx.issue))
      && (ReplyOf(r) != Accepted ==> After(r) == db)
  {
    ActiveIsSignedIn(db, tx.caller, tx.login, tx.lockAt);
    if SignedIn(db, tx.caller, tx.login, tx.lockAt) && !Verified(db.accounts[tx.caller]) {
      IssueOutcome(db, settled, now, tx.caller, PurposeVerifyEmail, tx.checkAt, tx.issue);
    }
    hide Valid, IssueCode, CodeQueued, CanIssueCode, SessionActive, RateAllows, Issues, AtMostFiveAnHour;
  }

  /**
   Whether the account gets a code by email alone: a claim code before its email is verified, a reset code for its
   password afterwards.
   */
  predicate EligibleByEmail(a: Account, claim: bool) {
    if claim then a.verifiedAt.None? else a.verifiedAt.Some? && a.passwordHash.Some?
  }

  /**
   A code request by email is always accepted. It issues a code exactly when the owner of the
   email is eligible and one more code keeps the rate, and changes nothing otherwise.
   */
  lemma EmailRequestOutcome(db: Tables, settled: map<Subject, Time>, now: Time, tx: Tx, s: Subject)
    requires Valid(db) && (tx.RequestClaimCode? || tx.RequestResetCode?) && Fits(db, settled, now, tx)
    requires AtMostFiveAnHour(db.challenges) && IssuedBefore(db.challenges, settled)
    ensures var r := if tx.RequestClaimCode? then RunRequestClaimCode(db, tx) else RunRequestResetCode(db, tx);
      var p := if tx.RequestClaimCode? then PurposeClaimAccount else PurposePasswordReset;
      && ReplyOf(r) == Accepted
      && ((forall t :: !OwnsEmail(db, t, tx.email)) ==> After(r) == db)
      && (OwnsEmail(db, s, tx.email) ==>
            if EligibleByEmail(db.accounts[s], tx.RequestClaimCode?) && RateAllows(db.challenges, s, tx.checkAt) then
              Issues(db, After(r), s, p, tx.email, tx.issue) && CodeQueued(After(r), s, p, tx.issue)
            else After(r) == db)
  {
    OwnerIsFound(db, tx.email, s);
    var found := FindActive(db.accounts, tx.email);
    if found.Some? && EligibleByEmail(db.accounts[found.value], tx.RequestClaimCode?) {
      var p := if tx.RequestClaimCode? then PurposeClaimAccount else PurposePasswordReset;
      IssueOutcome(db, settled, now, found.value, p, tx.checkAt, tx.issue);
    }
    hide Valid, IssueCode, CodeQueued, CanIssueCode, RateAllows, Issues, AtMostFiveAnHour, Fits, Schema.FindActive;
  }

  // The lookup by email finds the owner, and nothing without one.
  lemma OwnerIsFound(db: Tables, email: Email, s: Subject)
    requires Valid(db)
    ensures OwnsEmail(db, s, email) ==> FindActive(db.accounts, email) == Some(s)
    ensures (forall t :: !OwnsEmail(db, t, email)) ==> FindActive(db.accounts, email).None?
    ensures FindActive(db.accounts, email).Some? ==> OwnsEmail(db, FindActive(db.accounts, email).value, email)
  {
    hide SessionsValid, TokensValid, ChallengesValid, OneCurrent, DeliveriesValid, DeliveriesQueued, EventsValid;
    hide LinksValid, NoticesValid;
    forall t ensures IsActive(db.accounts, t, email) <==> OwnsEmail(db, t, email) {
      ActiveOwnsEmail(db, t, email);
    }
    if OwnsEmail(db, s, email) { assert FindActive(db.accounts, email).Some?; }
  }

  // The caller's session is alive by both clocks, under the row locks.
  predicate Holds(db: Tables, tx: Tx)
    requires tx.RequestReauthenticationCode? || tx.ReauthenticateWithCode? || tx.ReauthenticateWithProof?
  {
    SignedIn(db, tx.caller, tx.login, tx.lockAt) && Alive(db.sessions[tx.login], tx.observedAt)
  }

  lemma LockedIsHeld(db: Tables, s: Subject, id: SessionId, lockAt: Time, observedAt: Time)
    ensures SessionLocked(db, s, id, lockAt, observedAt) <==>
      SignedIn(db, s, id, lockAt) && Alive(db.sessions[id], observedAt)
  {
  }

  /** COMMIT runs its deadline checks before this time; the second one counts only when it stamps a proof. */
  predicate CommitsInTime(c: CommitClock, end: Time, stamps: bool) {
    c.checkedAt < end && (stamps ==> c.recheckedAt < end)
  }

  predicate CommitsAlive(c: CommitClock, s: Session, stamps: bool) {
    CommitsInTime(c, s.idleExpiresAt, stamps) && CommitsInTime(c, s.absoluteExpiresAt, stamps)
  }

  predicate IssuedWithinMinute(db: Tables, s: Subject, t: Time) {
    exists id :: id in db.challenges && db.challenges[id].subject == s &&
      db.challenges[id].purpose == PurposeReauthenticate && t - 60 * SECOND < db.challenges[id].issuedAt
  }

  /**
   A re-authentication code is issued exactly for a live session of a verified account that got
   none in the last minute, when one more code keeps the rate and COMMIT comes before the session ends.
   */
  lemma ReauthenticationRequestOutcome(db: Tables, settled: map<Subject, Time>, now: Time, tx: Tx)
    requires Valid(db) && tx.RequestReauthenticationCode? && Fits(db, settled, now, tx)
    requires AtMostFiveAnHour(db.challenges) && IssuedBefore(db.challenges, settled)
    ensures var r, s := RunRequestReauthenticationCode(db, tx), tx.caller;
      var issues := Holds(db, tx) && db.accounts[s].verifiedAt.Some? && !IssuedWithinMinute(db, s, tx.observedAt)
        && RateAllows(db.challenges, s, tx.checkAt) && CommitsAlive(tx.commit, db.sessions[tx.login], false);
      && ReplyOf(r) == (
           if !Holds(db, tx) then Refused(Unauthenticated)
           else if db.accounts[s].verifiedAt.None? then Refused(EmailUnverified)
           else if IssuedWithinMinute(db, s, tx.observedAt) || issues then Accepted
           else if !RateAllows(db.challenges, s, tx.checkAt) then Refused(RateLimited)
           else Refused(Unauthenticated))
      && (issues ==>
            && Issues(db, After(r), s, PurposeReauthenticate, db.accounts[s].email, tx.issue)
            && CodeQueued(After(r), s, PurposeReauthenticate, tx.issue))
      && (!issues ==> After(r) == db)
  {
    LockedIsHeld(db, tx.caller, tx.login, tx.lockAt, tx.observedAt);
    if Holds(db, tx) && Verified(db.accounts[tx.caller]) {
      IssueOutcome(db, settled, now, tx.caller, PurposeReauthenticate, tx.checkAt, tx.issue);
    }
    hide Valid, IssueCode, CodeQueued, CanIssueCode, SessionLocked, SignedIn, Alive, RateAllows, Issues;
    hide AtMostFiveAnHour;
  }

  // ----- Sign-up and login -----

  predicate Opened(db: Tables, s: Subject, n: NewSession) {
    && n.id in db.sessions && db.sessions[n.id].subject == s && db.sessions[n.id].token == n.token
    && db.sessions[n.id].createdAt == n.createAt && JustOpened(db.sessions[n.id])
  }

  lemma SignUpKeepsOneCurrent(db: Tables, settled: map<Subject, Time>, now: Time, tx: Tx)
    requires Valid(db) && tx.SignUp? && Fits(db, settled, now, tx)
    ensures OneCurrent(After(RunSignUp(db, tx)).challenges)
  {
    SignUpKeeps(db, settled, now, tx);
    hide RunSignUp, Follows, Fits, OneCurrent;
  }

  /**
   A sign-up is accepted exactly when nobody owns the email; it adds the unverified account, its
   session and its code, and nothing else changes.
   */
  lemma SignUpOutcome(db: Tables, settled: map<Subject, Time>, now: Time, tx: Tx)
    requires Valid(db) && tx.SignUp? && Fits(db, settled, now, tx)
    ensures var r := RunSignUp(db, tx);
      if exists s :: OwnsEmail(db, s, tx.email) then r == (Refused(AccountExists), db)
      else
        && ReplyOf(r) == Accepted
        && AddsCode(
             db.(accounts := db.accounts[tx.subject := Account(tx.email, Some(tx.hash), None, None)],
                 sessions := db.sessions[tx.session.id := FirstRow(tx.subject, tx.session)]),
             After(r), tx.subject, PurposeVerifyEmail, tx.email, tx.issue)
        && CodeQueued(After(r), tx.subject, PurposeVerifyEmail, tx.issue)
  {
    forall s ensures IsActive(db.accounts, s, tx.email) <==> OwnsEmail(db, s, tx.email) {
      ActiveOwnsEmail(db, s, tx.email);
    }
    if forall s :: !OwnsEmail(db, s, tx.email) {
      SignUpKeepsOneCurrent(db, settled, now, tx);
      hide Valid, Follows, CodeQueued, OwnsEmail, IsActive, QueueCode, OpenSession, AddsCode, Fits, OneCurrent;
      var created := InsertAccount(db, tx.subject, tx.email, Some(tx.hash), None);
      var signedIn := OpenSession(created, tx.subject, tx.session);
      OpenSessionAddsFirstRow(created, tx.subject, tx.session);
      QueueAddsCode(signedIn, tx.subject, PurposeVerifyEmail, tx.email, tx.issue);
      QueuedIsSendable(signedIn, tx.subject, PurposeVerifyEmail, tx.issue);
    }
  }

  /**
   A password login is accepted exactly when the account is not retired and its stored hash is
   still the one that was compared; it adds a session, and nothing else changes.
   */
  lemma LoginOutcome(db: Tables, tx: Tx)
    requires tx.IssueLogin?
    ensures RunIssueLogin(db, tx) ==
      if tx.caller in db.accounts && db.accounts[tx.caller].retiredAt.None?
        && db.accounts[tx.caller].passwordHash == Some(tx.foundHash)
      then (Accepted, db.(sessions := db.sessions[tx.session.id := FirstRow(tx.caller, tx.session)]))
      else (Refused(InvalidCredentials), db)
  {
    OpenSessionAddsFirstRow(db, tx.caller, tx.session);
    hide OpenSession;
  }

  ghost predicate IsLinked(db: Tables, who: ProviderIdentity) {
    who in db.links && db.links[who] in db.accounts && db.accounts[db.links[who]].retiredAt.None?
  }

  ghost predicate EmailIsFree(db: Tables, usable: Option<ProviderEmail>) {
    usable.Some? && forall s :: !OwnsEmail(db, s, usable.value.email)
  }

  /**
   A provider login is accepted exactly when its identity is linked to an account that is not
   retired, and then only adds a session, or when the identity is new and its usable email free.
   */
  lemma ProviderLoginOutcome(db: Tables, tx: Tx)
    requires tx.ProviderLogin?
    ensures var r := RunProviderLogin(db, tx);
      if IsLinked(db, tx.who) then
        r == (Accepted, db.(sessions := db.sessions[tx.session.id := FirstRow(db.links[tx.who], tx.session)]))
      else if !EmailIsFree(db, tx.usable) then r == (Refused(ProviderAccountUnavailable), db)
      else if tx.who in db.links then r == (Refused(Unavailable), db)
      else ReplyOf(r) == Accepted
  {
    if tx.usable.Some? {
      forall s ensures IsActive(db.accounts, s, tx.usable.value.email) <==> OwnsEmail(db, s, tx.usable.value.email) {
        ActiveOwnsEmail(db, s, tx.usable.value.email);
      }
    }
    if tx.who in db.links { OpenSessionAddsFirstRow(db, db.links[tx.who], tx.session); }
    hide OpenSession, QueueCode, InsertAccount, CreateProviderLink, OwnsEmail, IsActive;
  }

  function LinkedAccount(db: Tables, tx: Tx): Tables
    requires tx.ProviderLogin? && tx.usable.Some?
  {
    var verifiedAt := if tx.usable.value.verified then Some(tx.session.createAt) else None;
    CreateProviderLink(InsertAccount(db, tx.subject, tx.usable.value.email, None, verifiedAt), tx.who, tx.subject)
  }

  function CodeForNew(db: Tables, tx: Tx): Tables
    requires tx.ProviderLogin? && tx.usable.Some?
  {
    if tx.usable.value.verified
      then db else QueueCode(db, tx.subject, PurposeVerifyEmail, tx.usable.value.email, tx.issue)
  }

  lemma NewProviderAccountSteps(db: Tables, tx: Tx)
    requires tx.ProviderLogin? && tx.who !in db.links && ReplyOf(RunProviderLogin(db, tx)) == Accepted
    ensures tx.usable.Some?
    ensures After(RunProviderLogin(db, tx)) ==
      OpenSession(CodeForNew(LinkedAccount(db, tx), tx), tx.subject, tx.session)
  {
    hide OpenSession, QueueCode, InsertAccount, CreateProviderLink;
  }

  // The account, the link and the session of a new identity.
  function ProviderTables(db: Tables, tx: Tx): Tables
    requires tx.ProviderLogin? && tx.usable.Some?
  {
    var verifiedAt := if tx.usable.value.verified then Some(tx.session.createAt) else None;
    db.(accounts := db.accounts[tx.subject := Account(tx.usable.value.email, None, verifiedAt, None)],
        links := db.links[tx.who := tx.subject],
        sessions := db.sessions[tx.session.id := FirstRow(tx.subject, tx.session)])
  }

  /**
   A new identity gets an account without a password, its link, a session and, unless the
   provider proved the email, a code; nothing else changes.
   */
  lemma NewProviderAccountOutcome(db: Tables, settled: map<Subject, Time>, now: Time, tx: Tx)
    requires Valid(db) && tx.ProviderLogin? && Fits(db, settled, now, tx) && tx.who !in db.links
    requires ReplyOf(RunProviderLogin(db, tx)) == Accepted
    ensures var db' := After(RunProviderLogin(db, tx));
      && tx.usable.Some?
      && if tx.usable.value.verified then db' == ProviderTables(db, tx)
         else
           && AddsCode(ProviderTables(db, tx), db', tx.subject, PurposeVerifyEmail, tx.usable.value.email, tx.issue)
           && CodeQueued(db', tx.subject, PurposeVerifyEmail, tx.issue)
  {
    hide Valid, CodeQueued, QueueCode, OpenSession, OneCurrent, Fits, RunProviderLogin, AddsCode;
    ProviderLoginKeepsOneCurrent(db, settled, now, tx);
    NewProviderAccountSteps(db, tx);
    var a := LinkedAccount(db, tx);
    OpenSessionAddsFirstRow(CodeForNew(a, tx), tx.subject, tx.session);
    if !tx.usable.value.verified {
      OpeningKeepsQueue(a, tx);
      QueueAddsCode(a, tx.subject, PurposeVerifyEmail, tx.usable.value.email, tx.issue);
      AddingCommutes(a, QueueCode(a, tx.subject, PurposeVerifyEmail, tx.usable.value.email, tx.issue), tx);
    }
    QueueingKeepsAccounts(a, tx);
  }

  // A session may be added before the code or after it.
  lemma AddingCommutes(a: Tables, queued: Tables, tx: Tx)
    requires tx.ProviderLogin? && tx.usable.Some?
    requires AddsCode(a, queued, tx.subject, PurposeVerifyEmail, tx.usable.value.email, tx.issue)
    ensures var row := FirstRow(tx.subject, tx.session);
      AddsCode(a.(sessions := a.sessions[tx.session.id := row]),
        queued.(sessions := queued.sessions[tx.session.id := row]),
        tx.subject, PurposeVerifyEmail, tx.usable.value.email, tx.issue)
  {
  }

  lemma QueueingKeepsAccounts(db: Tables, tx: Tx)
    requires tx.ProviderLogin? && tx.usable.Some?
    ensures var db' := QueueCode(db, tx.subject, PurposeVerifyEmail, tx.usable.value.email, tx.issue);
      db'.accounts == db.accounts && db'.links == db.links && db'.sessions == db.sessions
  {
  }

  lemma ProviderLoginKeepsOneCurrent(db: Tables, settled: map<Subject, Time>, now: Time, tx: Tx)
    requires Valid(db) && tx.ProviderLogin? && Fits(db, settled, now, tx)
    ensures OneCurrent(After(RunProviderLogin(db, tx)).challenges)
  {
    ProviderLoginKeeps(db, settled, now, tx);
    hide RunProviderLogin, Follows, Fits, OneCurrent;
  }

  lemma OpeningKeepsQueue(db: Tables, tx: Tx)
    requires tx.ProviderLogin? && tx.subject in db.accounts && !Retired(db.accounts[tx.subject])
    requires !Verified(db.accounts[tx.subject])
    requires OneCurrent(QueueCode(db, tx.subject, PurposeVerifyEmail, db.accounts[tx.subject].email,
      tx.issue).challenges)
    ensures CodeQueued(OpenSession(QueueCode(db, tx.subject, PurposeVerifyEmail, db.accounts[tx.subject].email,
      tx.issue), tx.subject, tx.session),
      tx.subject, PurposeVerifyEmail, tx.issue)
  {
    QueuedIsSendable(db, tx.subject, PurposeVerifyEmail, tx.issue);
    hide QueueCode, OneCurrent;
  }

  // ----- Verification, claim and reset -----

  /**
   Verification of a signed-in caller's email: a verified caller is accepted without spending a
   code, the right code is consumed and verifies the email, a wrong one costs a guess, and
   nothing else changes.
   */
  lemma VerifyOutcome(db: Tables, tx: Tx)
    requires Valid(db) && tx.VerifyEmail?
    ensures var r, s := RunVerifyEmail(db, tx), tx.caller;
      if !SignedIn(db, s, tx.login, tx.lockAt) then r == (Refused(Unauthenticated), db)
      else if !SixDigits(tx.code) then r == (InvalidCode, db)
      else if db.accounts[s].verifiedAt.Some? then r == (Accepted, db)
      else if RightCode(db, s, PurposeVerifyEmail, tx.code, tx.appNow, tx.guessAt) then
        && ReplyOf(r) == Accepted
        && exists id ::
             && IsRight(db, s, PurposeVerifyEmail, tx.code, tx.appNow, tx.guessAt, id)
             && After(r) == Spent(db, id, tx.guessAt).(
                  accounts := db.accounts[s := db.accounts[s].(verifiedAt := Some(tx.writeAt))])
      else
        && ReplyOf(r) == InvalidCode
        && CountsGuess(db, After(r), s, PurposeVerifyEmail, tx.code, tx.appNow, tx.guessAt)
  {
    ActiveIsSignedIn(db, tx.caller, tx.login, tx.lockAt);
    SixDigitsAreValid(tx.code);
    hide SessionActive, ValidVerificationCode, SixDigits;
    if SignedIn(db, tx.caller, tx.login, tx.lockAt) {
      SubmissionEffect(db, tx.caller, PurposeVerifyEmail, tx.code, tx.appNow, tx.guessAt);
    }
    hide Valid, SubmitCode, RightCode, CountsGuess, IsRight, SignedIn;
  }

  /**
   What a claim leaves: the old account retired and signed out without codes, and the new verified account with a
   session.
   */
  ghost predicate Claimed(before: Tables, after: Tables, tx: Tx, s: Subject, id: ChallengeId)
    requires tx.ClaimAccount? && s in before.accounts && id in before.challenges
  {
    && after == before.(accounts := after.accounts, sessions := after.sessions, challenges := after.challenges,
         deliveries := after.deliveries)
    && after.accounts == before.accounts[s := before.accounts[s].(retiredAt := Some(tx.writeAt))]
                           [tx.subject := Account(tx.email, Some(tx.hash), Some(tx.writeAt), None)]
    && (exists ended :: SignsOut(before.sessions, ended, s, tx.writeAt) &&
          after.sessions == ended[tx.session.id := FirstRow(tx.subject, tx.session)])
    && Supersedes(Spent(before, id, tx.guessAt).challenges, after.challenges, s, None, tx.writeAt)
    && (forall k :: k in after.deliveries <==>
          k in before.deliveries && !(k in before.challenges && before.challenges[k].subject == s))
    && forall k :: k in after.deliveries ==> after.deliveries[k] == before.deliveries[k]
  }

  lemma RetirementEffect(db: Tables, s: Subject, at: Time)
    requires OwnsAccount(db, s)
    ensures var after := RetireAndRevoke(db, s, at);
      && after == db.(accounts := after.accounts, sessions := after.sessions, challenges := after.challenges,
           deliveries := after.deliveries)
      && after.accounts == db.accounts[s := db.accounts[s].(retiredAt := Some(at))]
      && SignsOut(db.sessions, after.sessions, s, at) && Supersedes(db.challenges, after.challenges, s, None, at)
      && (forall k :: k in after.deliveries <==>
            k in db.deliveries && !(k in db.challenges && db.challenges[k].subject == s))
      && forall k :: k in after.deliveries ==> after.deliveries[k] == db.deliveries[k]
  {
    RevocationSignsOut(db, s, at);
    var signedOut := RevokeAccountSessions(db, s, at);
    RevocationSupersedes(signedOut, s, at);
    AccountMaterialGoes(RevokeAccountChallenges(signedOut, s, at), s);
    RetirementRetires(DeleteAccountChallengeDeliveries(RevokeAccountChallenges(signedOut, s, at), s), s, at);
    hide RevokeAccountSessions, RevokeAccountChallenges, DeleteAccountChallengeDeliveries, RetireUnverifiedAccount;
    hide SignsOut;
  }

  predicate OwnsAccount(db: Tables, s: Subject) {
    s in db.accounts && db.accounts[s].verifiedAt.None? && db.accounts[s].retiredAt.None?
  }

  lemma AccountMaterialGoes(db: Tables, s: Subject)
    ensures var after := DeleteAccountChallengeDeliveries(db, s);
      && after == db.(deliveries := after.deliveries)
      && (forall k :: k in after.deliveries <==>
            k in db.deliveries && !(k in db.challenges && db.challenges[k].subject == s))
      && forall k :: k in after.deliveries ==> after.deliveries[k] == db.deliveries[k]
  {
  }

  lemma RetirementRetires(db: Tables, s: Subject, at: Time)
    requires OwnsAccount(db, s)
    ensures RetireUnverifiedAccount(db, s, at) ==
      db.(accounts := db.accounts[s := db.accounts[s].(retiredAt := Some(at))])
  {
  }

  /**
   A claim is accepted exactly with the right claim code of the unverified owner of the email;
   a wrong code costs a guess; nothing else changes.
   */
  lemma ClaimOutcome(db: Tables, settled: map<Subject, Time>, now: Time, tx: Tx, s: Subject)
    requires Valid(db) && tx.ClaimAccount? && Fits(db, settled, now, tx)
    ensures var r := RunClaimAccount(db, tx);
      && ((forall t :: !OwnsEmail(db, t, tx.email)) ==> r == (InvalidCode, db))
      && (OwnsEmail(db, s, tx.email) ==>
            if db.accounts[s].verifiedAt.Some? then r == (InvalidCode, db)
            else if RightCode(db, s, PurposeClaimAccount, tx.code, tx.appNow, tx.guessAt) then
              && ReplyOf(r) == Accepted && FindActive(After(r).accounts, tx.email) == Some(tx.subject)
              && exists id ::
                   && IsRight(db, s, PurposeClaimAccount, tx.code, tx.appNow, tx.guessAt, id)
                   && Claimed(db, After(r), tx, s, id)
            else
              && ReplyOf(r) == InvalidCode
              && CountsGuess(db, After(r), s, PurposeClaimAccount, tx.code, tx.appNow, tx.guessAt))
  {
    OwnerIsFound(db, tx.email, s);
    SubjectsOfSessions(db);
    assert tx.subject !in db.accounts && tx.session.id !in db.sessions;
    hide Valid, SubmitCode, RightCode, RetireAndRevoke, InsertAccount, MarkEmailVerified, OpenSession, Fits;
    hide AccountsValid, Claimed, CountsGuess, IsRight;
    if OwnsEmail(db, s, tx.email) && db.accounts[s].verifiedAt.None? {
      SubmissionEffect(db, s, PurposeClaimAccount, tx.code, tx.appNow, tx.guessAt);
      var g := SubmitCode(db, s, PurposeClaimAccount, tx.code, tx.appNow, tx.guessAt);
      if g.Hit? {
        RightExists(db, s, PurposeClaimAccount, tx.code, tx.appNow, tx.guessAt, g.id);
        ReplacementOutcome(g.db, s, tx);
        ReplacementEffect(db, s, tx, g.id);
      }
    }
  }

  lemma RightExists(
    db: Tables, s: Subject, p: Purpose, code: string, appNow: Time, guessAt: Time, id: ChallengeId)
    requires IsRight(db, s, p, code, appNow, guessAt, id)
    ensures id in db.challenges
  {
  }

  lemma NewAccountStarts(db: Tables, s: Subject, email: Email, hash: PasswordHash, at: Time)
    ensures MarkEmailVerified(InsertAccount(db, s, email, Some(hash), None), s, at) ==
      db.(accounts := db.accounts[s := Account(email, Some(hash), Some(at), None)])
  {
  }

  lemma ReplacementEffect(db: Tables, s: Subject, tx: Tx, id: ChallengeId)
    requires tx.ClaimAccount? && OwnsAccount(db, s) && id in db.challenges
    ensures
      var spent := Spent(db, id, tx.guessAt);
      var created := InsertAccount(RetireAndRevoke(spent, s, tx.writeAt), tx.subject, tx.email, Some(tx.hash), None);
      Claimed(db, OpenSession(MarkEmailVerified(created, tx.subject, tx.writeAt), tx.subject, tx.session), tx, s, id)
  {
    var spent := Spent(db, id, tx.guessAt);
    RetirementEffect(spent, s, tx.writeAt);
    var retired := RetireAndRevoke(spent, s, tx.writeAt);
    NewAccountStarts(retired, tx.subject, tx.email, tx.hash, tx.writeAt);
    OpenSessionAddsFirstRow(
      MarkEmailVerified(InsertAccount(retired, tx.subject, tx.email, Some(tx.hash), None), tx.subject, tx.writeAt),
      tx.subject, tx.session);
    hide RetireAndRevoke, InsertAccount, MarkEmailVerified, OpenSession, SignsOut, Supersedes;
    assert SignsOut(db.sessions, retired.sessions, s, tx.writeAt);
  }

  lemma SubjectsOfSessions(db: Tables)
    requires Valid(db)
    ensures AccountsValid(db.accounts) && forall id :: id in db.sessions ==> db.sessions[id].subject in db.accounts
  {
    hide AccountsValid, TokensValid, ChallengesValid, OneCurrent, DeliveriesValid, DeliveriesQueued, EventsValid;
    hide LinksValid, NoticesValid;
  }

  lemma OnlyTheNewOne(db: Tables, s: Subject, tx: Tx)
    requires tx.ClaimAccount? && CanVerify(db, s) && tx.subject !in db.accounts
    requires forall t :: IsActive(db.accounts, t, tx.email) ==> t == s
    ensures
      var created := InsertAccount(RetireAndRevoke(db, s, tx.writeAt), tx.subject, tx.email, Some(tx.hash), None);
      var accounts := MarkEmailVerified(created, tx.subject, tx.writeAt).accounts;
      forall t :: IsActive(accounts, t, tx.email) <==> t == tx.subject
  {
    var retired := RetireAndRevoke(db, s, tx.writeAt).accounts;
    assert retired == db.accounts[s := db.accounts[s].(retiredAt := Some(tx.writeAt))];
    assert forall t :: t in retired && t != s ==> IsActive(retired, t, tx.email) == IsActive(db.accounts, t, tx.email);
    hide RetireAndRevoke;
  }

  lemma ReplacementOutcome(db: Tables, s: Subject, tx: Tx)
    requires tx.ClaimAccount? && IsActive(db.accounts, s, tx.email) && !Verified(db.accounts[s])
    requires tx.subject !in db.accounts
    requires tx.session.id !in db.sessions && AccountsValid(db.accounts)
    requires forall id :: id in db.sessions ==> db.sessions[id].subject in db.accounts
    ensures
      var created := InsertAccount(RetireAndRevoke(db, s, tx.writeAt), tx.subject, tx.email, Some(tx.hash), None);
      var db' := OpenSession(MarkEmailVerified(created, tx.subject, tx.writeAt), tx.subject, tx.session);
      && s in db'.accounts && Retired(db'.accounts[s])
      && (forall id :: id in db'.sessions && db'.sessions[id].subject == s ==> Revoked(db'.sessions[id]))
      && tx.subject in db'.accounts
      && db'.accounts[tx.subject] == Account(tx.email, Some(tx.hash), Some(tx.writeAt), None)
      && FindActive(db'.accounts, tx.email) == Some(tx.subject) && Opened(db', tx.subject, tx.session)
  {
    var created := InsertAccount(RetireAndRevoke(db, s, tx.writeAt), tx.subject, tx.email, Some(tx.hash), None);
    var db' := OpenSession(MarkEmailVerified(created, tx.subject, tx.writeAt), tx.subject, tx.session);
    assert forall t :: IsActive(db.accounts, t, tx.email) ==> t == s;
    OnlyTheNewOne(db, s, tx);
    hide IsActive, AccountsValid;
    assert IsActive(db'.accounts, tx.subject, tx.email);
    assert FindActive(db'.accounts, tx.email).Some?;
  }

  /** What a reset leaves: the new hash, no session and no reset code of the account, and a queued notice. */
  ghost predicate WasReset(before: Tables, after: Tables, tx: Tx, s: Subject, id: ChallengeId)
    requires tx.ResetPassword? && s in before.accounts && id in before.challenges
  {
    && after == before.(accounts := after.accounts, sessions := after.sessions, challenges := after.challenges,
         deliveries := after.deliveries, notices := after.notices)
    && after.accounts == before.accounts[s := before.accounts[s].(passwordHash := Some(tx.hash))]
    && SignsOut(before.sessions, after.sessions, s, tx.writeAt)
    && Supersedes(Spent(before, id, tx.guessAt).challenges, after.challenges, s, Some(PurposePasswordReset), tx.writeAt)
    && (forall k :: k in after.deliveries <==>
          k in before.deliveries && k != id && !HasReplaced(after.challenges, s, PurposePasswordReset, k))
    && (forall k :: k in after.deliveries ==> after.deliveries[k] == before.deliveries[k])
    && after.notices == before.notices[tx.notice := Notice(s, before.accounts[s].email, tx.writeAt, tx.writeAt, 0)]
  }

  lemma ChangeEffect(db: Tables, s: Subject, hash: PasswordHash, n: NoticeId, at: Time)
    requires s in db.accounts && db.accounts[s].verifiedAt.Some? && db.accounts[s].retiredAt.None?
    ensures var after := QueuePasswordChangeNotice(RevokeAccountSessions(UpdatePasswordHash(db, s, hash), s, at), n,
      s, at);
      && after == db.(accounts := db.accounts[s := db.accounts[s].(passwordHash := Some(hash))],
           sessions := after.sessions,
           notices := db.notices[n := Notice(s, db.accounts[s].email, at, at, 0)])
      && SignsOut(db.sessions, after.sessions, s, at)
  {
    var updated := UpdatePasswordHash(db, s, hash);
    assert updated == db.(accounts := db.accounts[s := db.accounts[s].(passwordHash := Some(hash))]);
    RevocationSignsOut(updated, s, at);
    hide RevokeAccountSessions, UpdatePasswordHash, SignsOut;
  }

  lemma ResetEffect(db: Tables, tx: Tx, s: Subject, id: ChallengeId)
    requires tx.ResetPassword? && id in db.challenges
    requires s in db.accounts && db.accounts[s].verifiedAt.Some? && db.accounts[s].retiredAt.None?
    ensures WasReset(db, ApplyPasswordReset(Spent(db, id, tx.guessAt), s, id, tx.hash, tx.notice, tx.writeAt), tx, s,
      id)
  {
    var spent := Spent(db, id, tx.guessAt);
    ReplacementSupersedes(spent, s, PurposePasswordReset, tx.writeAt);
    var replaced := ReplaceCurrentChallenge(spent, s, PurposePasswordReset, tx.writeAt);
    DeletionDropsReplaced(replaced, s, PurposePasswordReset);
    var cleared := DeleteChallengeDelivery(DeleteReplacedChallengeDeliveries(replaced, s, PurposePasswordReset), id);
    ChangeEffect(cleared, s, tx.hash, tx.notice, tx.writeAt);
    hide ReplaceCurrentChallenge, DeleteReplacedChallengeDeliveries, UpdatePasswordHash, RevokeAccountSessions;
    hide QueuePasswordChangeNotice, SignsOut, Supersedes, HasReplaced;
  }

  /**
   A reset is accepted exactly with the right reset code of the verified owner of the email who has
   a password; a wrong code costs a guess; nothing else changes.
   */
  lemma ResetOutcome(db: Tables, tx: Tx, s: Subject)
    requires Valid(db) && tx.ResetPassword?
    ensures var r := RunResetPassword(db, tx);
      && ((forall t :: !OwnsEmail(db, t, tx.email)) ==> r == (InvalidCode, db))
      && (OwnsEmail(db, s, tx.email) ==>
            if db.accounts[s].verifiedAt.None? || db.accounts[s].passwordHash.None? then r == (InvalidCode, db)
            else if RightCode(db, s, PurposePasswordReset, tx.code, tx.appNow, tx.guessAt) then
              && ReplyOf(r) == Accepted
              && exists id ::
                   && IsRight(db, s, PurposePasswordReset, tx.code, tx.appNow, tx.guessAt, id)
                   && WasReset(db, After(r), tx, s, id)
            else
              && ReplyOf(r) == InvalidCode
              && CountsGuess(db, After(r), s, PurposePasswordReset, tx.code, tx.appNow, tx.guessAt))
  {
    OwnerIsFound(db, tx.email, s);
    hide Valid, SubmitCode, RightCode, ApplyPasswordReset, WasReset, CountsGuess, IsRight;
    if OwnsEmail(db, s, tx.email) && db.accounts[s].verifiedAt.Some? {
      SubmissionEffect(db, s, PurposePasswordReset, tx.code, tx.appNow, tx.guessAt);
      var g := SubmitCode(db, s, PurposePasswordReset, tx.code, tx.appNow, tx.guessAt);
      if g.Hit? {
        RightExists(db, s, PurposePasswordReset, tx.code, tx.appNow, tx.guessAt, g.id);
        ResetEffect(db, tx, s, g.id);
      }
    }
  }

  // ----- Re-authentication -----

  /** The window is open: proven within the last ten minutes, and the session alive. */
  predicate ProvenLately(s: Session, t: Time) {
    s.provenAt.Some? && s.provenAt.value <= t < s.provenAt.value + 10 * MINUTE && t < s.idleExpiresAt
      && t < s.absoluteExpiresAt
  }

  /** A proof stamps the time of COMMIT on a session whose window is closed, and changes nothing else. */
  function Proven(db: Tables, id: SessionId, t: Time, stampedAt: Time): Tables
    requires id in db.sessions
  {
    if ProvenLately(db.sessions[id], t) then db
    else db.(sessions := db.sessions[id := db.sessions[id].(provenAt := Some(stampedAt))])
  }

  lemma CommitOutcome(db: Tables, id: SessionId, t: Time, deadline: Time, c: CommitClock)
    requires id in db.sessions
    ensures CommitProof(db, id, t, deadline, c) ==
      if CommitsInTime(c, deadline, !ProvenLately(db.sessions[id], t))
        then Some(Proven(db, id, t, c.stampedAt)) else None
  {
  }

  /**
   A re-authentication is accepted exactly when the caller's session is alive under its locks
   and COMMIT runs its checks before both of the session's expiries, the second one when it
   stamps; it then proves the session, and nothing else changes.
   */
  lemma ReauthenticationOpensWindow(db: Tables, tx: Tx)
    requires tx.ReauthenticateWithProof?
    ensures RunReauthenticateWithProof(db, tx) ==
      if Holds(db, tx)
        && CommitsAlive(tx.commit, db.sessions[tx.login], !ProvenLately(db.sessions[tx.login], tx.observedAt))
      then (Accepted, Proven(db, tx.login, tx.observedAt, tx.commit.stampedAt))
      else (Refused(Unauthenticated), db)
    ensures Ticks(tx.commit) && ReplyOf(RunReauthenticateWithProof(db, tx)) == Accepted ==>
      var session := After(RunReauthenticateWithProof(db, tx)).sessions[tx.login];
      ProvenLately(session, if ProvenLately(db.sessions[tx.login], tx.observedAt)
        then tx.observedAt else tx.commit.stampedAt)
  {
    LockedIsHeld(db, tx.caller, tx.login, tx.lockAt, tx.observedAt);
    if Holds(db, tx) {
      CommitOutcome(db, tx.login, tx.observedAt, SessionDeadline(WindowOf(db.sessions[tx.login])), tx.commit);
    }
    hide SessionLocked, CommitProof, SignedIn;
  }

  // COMMIT also comes before the code expires.
  predicate CommitsInCode(db: Tables, tx: Tx, id: ChallengeId)
    requires tx.ReauthenticateWithCode? && tx.login in db.sessions && id in db.challenges
  {
    var stamps := !ProvenLately(db.sessions[tx.login], tx.windowAt);
    CommitsAlive(tx.commit, db.sessions[tx.login], stamps)
      && CommitsInTime(tx.commit, db.challenges[id].expiresAt, stamps)
  }

  /**
   With a code it is accepted exactly when the session of a verified account is alive at its lock and
   at its window, the code is the right one, and COMMIT comes before the session and the code expire.
   It then consumes the code and proves the session. A COMMIT that comes too late is the code's fault
   when the code expires first, and leaves the code unspent. A wrong code costs a guess.
   */
  lemma CodeReauthenticationOutcome(db: Tables, tx: Tx)
    requires Valid(db) && tx.ReauthenticateWithCode?
    ensures var r, s := RunReauthenticateWithCode(db, tx), tx.caller;
      if !Holds(db, tx) then r == (Refused(Unauthenticated), db)
      else if db.accounts[s].verifiedAt.None? then r == (InvalidCode, db)
      else if !RightCode(db, s, PurposeReauthenticate, tx.code, tx.observedAt, tx.guessAt) then
        && ReplyOf(r) == InvalidCode
        && CountsGuess(db, After(r), s, PurposeReauthenticate, tx.code, tx.observedAt, tx.guessAt)
      else
        exists id ::
          && IsRight(db, s, PurposeReauthenticate, tx.code, tx.observedAt, tx.guessAt, id)
          && var session, expiry := db.sessions[tx.login], db.challenges[id].expiresAt;
          if !Alive(session, tx.windowAt) then r == (Refused(Unauthenticated), db)
          else if CommitsInCode(db, tx, id) then
            r == (Accepted, Proven(Spent(db, id, tx.guessAt), tx.login, tx.windowAt, tx.commit.stampedAt))
          else if expiry < session.idleExpiresAt && expiry < session.absoluteExpiresAt then r == (InvalidCode, db)
          else r == (Refused(Unauthenticated), db)
  {
    LockedIsHeld(db, tx.caller, tx.login, tx.lockAt, tx.observedAt);
    hide SessionLocked, SubmitCode, RightCode, CountsGuess, IsRight, Valid, CommitProof;
    if Holds(db, tx) {
      SubmissionEffect(db, tx.caller, PurposeReauthenticate, tx.code, tx.observedAt, tx.guessAt);
      var g := SubmitCode(db, tx.caller, PurposeReauthenticate, tx.code, tx.observedAt, tx.guessAt);
      if g.Hit? {
        RightExists(db, tx.caller, PurposeReauthenticate, tx.code, tx.observedAt, tx.guessAt, g.id);
        var deadline := Min(SessionDeadline(WindowOf(db.sessions[tx.login])), db.challenges[g.id].expiresAt);
        CommitOutcome(g.db, tx.login, tx.windowAt, deadline, tx.commit);
        LiveIsAlive(db.sessions[tx.login], tx.windowAt);
      }
    }
  }

  // ----- Logout -----

  /**
   A logout is accepted exactly for a signed-in caller; it ends that session, or the live sessions
   of the account, and nothing else changes.
   */
  lemma LogoutOutcome(db: Tables, tx: Tx)
    requires tx.LogoutCurrent? || tx.LogoutAll?
    ensures var r := if tx.LogoutCurrent? then RunLogoutCurrent(db, tx) else RunLogoutAll(db, tx);
      var at := if tx.LogoutCurrent? then tx.writeAt else tx.lockAt;
      if SignedIn(db, tx.caller, tx.login, at) then
        && ReplyOf(r) == Accepted && After(r) == db.(sessions := After(r).sessions)
        && if tx.LogoutCurrent? then EndsOne(db.sessions, After(r).sessions, tx.login, tx.writeAt)
           else SignsOut(db.sessions, After(r).sessions, tx.caller, tx.writeAt)
      else r == (Refused(Unauthenticated), db)
  {
    ActiveIsSignedIn(db, tx.caller, tx.login, if tx.LogoutCurrent? then tx.writeAt else tx.lockAt);
    RevocationSignsOut(db, tx.caller, tx.writeAt);
    if SignedIn(db, tx.caller, tx.login, tx.writeAt) { RevocationEndsOne(db, tx.login, tx.writeAt); }
    hide SessionActive, RevokeAccountSessions, RevokeRefreshSession, SignsOut, EndsOne;
  }
}
