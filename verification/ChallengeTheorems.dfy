/**
 Guesses, consumption and issue rate of the emailed codes, over every run and for any skew of the application's
 clock.
 */
module ChallengeTheorems {
  import opened Options
  import opened Clock
  import opened Schema
  import opened Statements
  import opened Consistency
  import opened ChallengeCheck
  import opened Transactions
  import opened Effects
  import opened Pacing
  import opened System
  import opened SystemInvariant
  import opened Runs
  import opened AccountTheorems

  lemma FixedTimeChangesNothing(c: Challenge, s: Subject, email: Email, p: Purpose, code: string, appNow: Time)
    ensures CheckInFixedTime(c, s, email, p, code, appNow) == Check(c, s, email, p, code, appNow)
  {
  }

  // ----- One submission -----

  predicate Guessed(db: Tables, db': Tables, id: ChallengeId) {
    && id in db.challenges
    && var counted := db.challenges[id].(wrongGuesses := db.challenges[id].wrongGuesses + 1);
    db' == db.(challenges := db.challenges[id := counted])
  }

  lemma TheCurrentOne(db: Tables, id: ChallengeId, s: Subject, p: Purpose)
    requires OneCurrent(db.challenges) && IsCurrentChallenge(db.challenges, id, s, p)
    ensures FindCurrent(db.challenges, s, p) == Some(id)
  {
    assert !FindCurrent(db.challenges, s, p).None?;
  }

  /**
   What a well-formed code does to the account's current challenge: the stored code
   consumes it exactly when both clocks find it open; any other code then costs exactly
   one guess; otherwise nothing changes.
   */
  lemma SubmissionOutcome(
    db: Tables, s: Subject, p: Purpose, id: ChallengeId, code: string, appNow: Time, guessAt: Time)
    requires Valid(db) && s in db.accounts && IsCurrentChallenge(db.challenges, id, s, p) && ValidVerificationCode(code)
    ensures var g := SubmitCode(db, s, p, code, appNow, guessAt);
      if !OpenCode(db, s, p, id, appNow, guessAt) then g == Missed(db)
      else if code == db.challenges[id].verifier.code then
        g == Hit(id, db.(challenges := db.challenges[id := db.challenges[id].(consumedAt := Some(guessAt))]))
      else g.Missed? && Guessed(db, g.db, id)
  {
    hide AccountsValid, SessionsValid, TokensValid, DeliveriesValid, DeliveriesQueued, EventsValid, LinksValid;
    hide NoticesValid, Schema.FindCurrent;
    TheCurrentOne(db, id, s, p);
    assert ChallengeValid(db.accounts[s], db.challenges[id]);
  }

  lemma NothingToSubmitTo(db: Tables, s: Subject, p: Purpose, code: string, appNow: Time, guessAt: Time)
    requires s in db.accounts && (FindCurrent(db.challenges, s, p).None? || !ValidVerificationCode(code))
    ensures SubmitCode(db, s, p, code, appNow, guessAt) == Missed(db)
  {
  }

  // ----- Counting guesses over a run -----

  datatype Submission = Submission(subject: Subject, purpose: Purpose, code: string, appNow: Time, guessAt: Time)

  /** The code that a transaction compares, if its earlier checks let it get there. */
  ghost function SubmissionOf(db: Tables, tx: Tx): (sub: Option<Submission>)
    ensures sub.Some? ==> sub.value.subject in db.accounts
  {
    if tx.VerifyEmail? && SessionActive(db, tx.caller, tx.login, tx.lockAt) && !Verified(db.accounts[tx.caller]) then
      Some(Submission(tx.caller, PurposeVerifyEmail, tx.code, tx.appNow, tx.guessAt))
    else if tx.ClaimAccount? && FindActive(db.accounts, tx.email).Some?
      && !Verified(db.accounts[FindActive(db.accounts, tx.email).value]) then
      Some(Submission(FindActive(db.accounts, tx.email).value, PurposeClaimAccount, tx.code, tx.appNow, tx.guessAt))
    else if tx.ResetPassword? && FindActive(db.accounts, tx.email).Some?
      && CanRecover(db.accounts[FindActive(db.accounts, tx.email).value]) then
      Some(Submission(FindActive(db.accounts, tx.email).value, PurposePasswordReset, tx.code, tx.appNow, tx.guessAt))
    else if tx.ReauthenticateWithCode? && SessionLocked(db, tx.caller, tx.login, tx.lockAt, tx.observedAt)
      && Verified(db.accounts[tx.caller]) then
      Some(Submission(tx.caller, PurposeReauthenticate, tx.code, tx.observedAt, tx.guessAt))
    else None
  }

  ghost predicate WrongSubmission(db: Tables, sub: Option<Submission>, id: ChallengeId) {
    && sub.Some?
    && IsWrong(db, sub.value.subject, sub.value.purpose, sub.value.code, sub.value.appNow, sub.value.guessAt, id)
  }

  ghost predicate SameGuesses(challenges: Challenges, challenges': Challenges) {
    forall id :: id in challenges ==> id in challenges' && challenges'[id].wrongGuesses == challenges[id].wrongGuesses
  }

  ghost function Submitted(db: Tables, sub: Submission): Tables
    requires sub.subject in db.accounts
  {
    SubmitCode(db, sub.subject, sub.purpose, sub.code, sub.appNow, sub.guessAt).db
  }

  lemma SubmittedGuesses(db: Tables, sub: Submission, id: ChallengeId)
    requires Valid(db) && sub.subject in db.accounts && id in db.challenges
    ensures id in Submitted(db, sub).challenges && Submitted(db, sub).challenges[id].wrongGuesses ==
      db.challenges[id].wrongGuesses + if WrongSubmission(db, Some(sub), id) then 1 else 0
  {
    SixDigitsAreValid(sub.code);
    hide Valid, SubmitCode, SixDigits, ValidVerificationCode;
    var found := FindCurrent(db.challenges, sub.subject, sub.purpose);
    if WrongSubmission(db, Some(sub), id) { assert IsCurrentChallenge(db.challenges, id, sub.subject, sub.purpose); }
    if found.None? || !ValidVerificationCode(sub.code) {
      NothingToSubmitTo(db, sub.subject, sub.purpose, sub.code, sub.appNow, sub.guessAt);
    } else {
      SubmissionOutcome(db, sub.subject, sub.purpose, found.value, sub.code, sub.appNow, sub.guessAt);
      if IsCurrentChallenge(db.challenges, id, sub.subject, sub.purpose) { OnlyOneCurrent(db, id, found.value); }
    }
  }

  lemma OnlyOneCurrent(db: Tables, i: ChallengeId, j: ChallengeId)
    requires Valid(db) && i in db.challenges && j in db.challenges && Current(db.challenges[i])
    requires Current(db.challenges[j])
    requires db.challenges[i].subject == db.challenges[j].subject
    requires db.challenges[i].purpose == db.challenges[j].purpose
    ensures i == j
  {
    hide AccountsValid, SessionsValid, TokensValid, ChallengesValid, DeliveriesValid, DeliveriesQueued, EventsValid;
    hide LinksValid, NoticesValid;
  }

  lemma RetireKeepsGuesses(db: Tables, s: Subject, now: Time)
    ensures SameGuesses(db.challenges, RetireAndRevoke(db, s, now).challenges)
  {
  }

  lemma ResetKeepsGuesses(db: Tables, s: Subject, id: ChallengeId, hash: PasswordHash, n: NoticeId, now: Time)
    ensures SameGuesses(db.challenges, ApplyPasswordReset(db, s, id, hash, n, now).challenges)
  {
    hide ReplaceCurrentChallenge, DeleteReplacedChallengeDeliveries, DeleteChallengeDelivery;
    hide UpdatePasswordHash, RevokeAccountSessions, QueuePasswordChangeNotice;
    var replaced := ReplaceCurrentChallenge(db, s, PurposePasswordReset, now);
    ReplacementKeepsGuesses(db, s, PurposePasswordReset, now);
    ClearingKeepsChallenges(replaced, s, id);
    var cleared := DeleteChallengeDelivery(DeleteReplacedChallengeDeliveries(replaced, s, PurposePasswordReset), id);
    ChangingKeepsChallenges(cleared, s, hash, n, now);
  }

  lemma ReplacementKeepsGuesses(db: Tables, s: Subject, p: Purpose, now: Time)
    ensures SameGuesses(db.challenges, ReplaceCurrentChallenge(db, s, p, now).challenges)
  {
  }

  lemma ClearingKeepsChallenges(db: Tables, s: Subject, id: ChallengeId)
    ensures DeleteChallengeDelivery(DeleteReplacedChallengeDeliveries(db, s, PurposePasswordReset), id).challenges ==
      db.challenges
  {
  }

  lemma ChangingKeepsChallenges(db: Tables, s: Subject, hash: PasswordHash, n: NoticeId, now: Time)
    ensures
      var updated := UpdatePasswordHash(db, s, hash);
      QueuePasswordChangeNotice(RevokeAccountSessions(updated, s, now), n, s, now).challenges == db.challenges
  {
    hide UpdatePasswordHash, RevokeAccountSessions, QueuePasswordChangeNotice;
    var updated := UpdatePasswordHash(db, s, hash);
    PasswordKeepsChallenges(db, s, hash);
    RevocationKeepsChallenges(updated, s, now);
    NoticeKeepsChallenges(RevokeAccountSessions(updated, s, now), n, s, now);
  }

  lemma PasswordKeepsChallenges(db: Tables, s: Subject, hash: PasswordHash)
    ensures UpdatePasswordHash(db, s, hash).challenges == db.challenges
  {
  }

  lemma RevocationKeepsChallenges(db: Tables, s: Subject, now: Time)
    ensures RevokeAccountSessions(db, s, now).challenges == db.challenges
  {
  }

  lemma NoticeKeepsChallenges(db: Tables, n: NoticeId, s: Subject, now: Time)
    ensures QueuePasswordChangeNotice(db, n, s, now).challenges == db.challenges
  {
  }

  lemma IssueKeepsGuesses(db: Tables, s: Subject, p: Purpose, n: NewCode)
    requires s in db.accounts && n.id !in db.challenges
    ensures SameGuesses(db.challenges, IssueCode(db, s, p, n).challenges)
  {
    hide QueueCode, ReplaceCode;
    ReplacingKeepsGuesses(db, s, p, n.replaceAt);
    QueueKeepsGuesses(ReplaceCode(db, s, p, n.replaceAt), s, p, db.accounts[s].email, n);
  }

  lemma ReplacingKeepsGuesses(db: Tables, s: Subject, p: Purpose, now: Time)
    ensures SameGuesses(db.challenges, ReplaceCode(db, s, p, now).challenges)
    ensures ReplaceCode(db, s, p, now).challenges.Keys == db.challenges.Keys
  {
    hide DeleteReplacedChallengeDeliveries;
    DeletionKeepsChallenges(ReplaceCurrentChallenge(db, s, p, now), s, p);
  }

  lemma DeletionKeepsChallenges(db: Tables, s: Subject, p: Purpose)
    ensures DeleteReplacedChallengeDeliveries(db, s, p).challenges == db.challenges
  {
  }

  // After the comparison no statement of the transaction touches a guess counter.
  lemma VerifyGuesses(db: Tables, tx: Tx)
    requires tx.VerifyEmail? && SubmissionOf(db, tx).Some?
    ensures SameGuesses(Submitted(db, SubmissionOf(db, tx).value).challenges, After(RunVerifyEmail(db, tx)).challenges)
  {
    hide SubmitCode;
    if !ValidVerificationCode(tx.code) {
      NothingToSubmitTo(db, tx.caller, PurposeVerifyEmail, tx.code, tx.appNow, tx.guessAt);
    }
  }

  lemma ClaimGuesses(db: Tables, tx: Tx)
    requires tx.ClaimAccount? && SubmissionOf(db, tx).Some?
    ensures SameGuesses(Submitted(db, SubmissionOf(db, tx).value).challenges, After(RunClaimAccount(db, tx)).challenges)
  {
    hide SubmitCode, RetireAndRevoke;
    var s := SubmissionOf(db, tx).value.subject;
    RetireKeepsGuesses(Submitted(db, SubmissionOf(db, tx).value), s, tx.writeAt);
  }

  lemma ResetGuesses(db: Tables, tx: Tx)
    requires tx.ResetPassword? && SubmissionOf(db, tx).Some?
    ensures SameGuesses(Submitted(db, SubmissionOf(db, tx).value).challenges,
      After(RunResetPassword(db, tx)).challenges)
  {
    hide SubmitCode, ApplyPasswordReset;
    var sub := SubmissionOf(db, tx).value;
    var g := SubmitCode(db, sub.subject, sub.purpose, sub.code, sub.appNow, sub.guessAt);
    if g.Hit? { ResetKeepsGuesses(g.db, sub.subject, g.id, tx.hash, tx.notice, tx.writeAt); }
  }

  lemma ReauthenticationGuesses(db: Tables, tx: Tx)
    requires tx.ReauthenticateWithCode? && SubmissionOf(db, tx).Some?
    ensures SameGuesses(Submitted(db, SubmissionOf(db, tx).value).challenges,
      After(RunReauthenticateWithCode(db, tx)).challenges)
  {
    HitKeepsGuesses(db, SubmissionOf(db, tx).value);
    SubmissionKeepsAccounts(db, tx.caller, PurposeReauthenticate, tx.code, tx.observedAt, tx.guessAt);
    hide SubmitCode;
  }

  lemma HitKeepsGuesses(db: Tables, sub: Submission)
    requires sub.subject in db.accounts
    ensures var g := SubmitCode(db, sub.subject, sub.purpose, sub.code, sub.appNow, sub.guessAt);
      g.Hit? ==>
        && SameGuesses(g.db.challenges, db.challenges) && SameGuesses(db.challenges, g.db.challenges)
        && g.id in db.challenges && g.db.sessions == db.sessions
  {
  }

  lemma RequestsKeepGuesses(db: Tables, tx: Tx)
    requires tx.RequestVerificationCode? || tx.RequestClaimCode? || tx.RequestResetCode?
      || tx.RequestReauthenticationCode?
    requires tx.issue.id !in db.challenges
    ensures SameGuesses(db.challenges, After(Run(db, tx)).challenges)
  {
    hide IssueCode;
    var s := if tx.RequestVerificationCode?
      || tx.RequestReauthenticationCode? then Some(tx.caller) else FindActive(db.accounts, tx.email);
    var p := if tx.RequestVerificationCode? then PurposeVerifyEmail else if tx.RequestClaimCode?
      then PurposeClaimAccount
      else if tx.RequestResetCode? then PurposePasswordReset else PurposeReauthenticate;
    if s.Some? && s.value in db.accounts { IssueKeepsGuesses(db, s.value, p, tx.issue); }
  }

  lemma QueueKeepsGuesses(db: Tables, s: Subject, p: Purpose, email: Email, n: NewCode)
    requires n.id !in db.challenges
    ensures SameGuesses(db.challenges, QueueCode(db, s, p, email, n).challenges)
  {
  }

  lemma SignUpKeepsGuesses(db: Tables, tx: Tx)
    requires tx.SignUp? && tx.issue.id !in db.challenges
    ensures SameGuesses(db.challenges, After(RunSignUp(db, tx)).challenges)
  {
    hide QueueCode;
    var created := InsertAccount(db, tx.subject, tx.email, Some(tx.hash), None);
    QueueKeepsGuesses(OpenSession(created, tx.subject, tx.session), tx.subject, PurposeVerifyEmail, tx.email, tx.issue);
  }

  lemma OpeningKeepsChallenges(db: Tables, tx: Tx)
    ensures tx.ProviderLogin? ==>
      forall other: Tables, s: Subject :: OpenSession(other, s, tx.session).challenges == other.challenges
    ensures forall s: Subject, email: Email, verifiedAt: Option<Time>, who: ProviderIdentity ::
      CreateProviderLink(InsertAccount(db, s, email, None, verifiedAt), who, s).challenges == db.challenges
  {
  }

  lemma ProviderLoginKeepsGuesses(db: Tables, tx: Tx)
    requires tx.ProviderLogin? && tx.issue.id !in db.challenges
    ensures SameGuesses(db.challenges, After(RunProviderLogin(db, tx)).challenges)
  {
    hide QueueCode, IsActive, Retired, OpenSession, InsertAccount, CreateProviderLink;
    OpeningKeepsChallenges(db, tx);
    if tx.usable.Some? {
      var email := tx.usable.value.email;
      var verifiedAt := if tx.usable.value.verified then Some(tx.session.createAt) else None;
      var linked := CreateProviderLink(InsertAccount(db, tx.subject, email, None, verifiedAt), tx.who, tx.subject);
      QueueKeepsGuesses(linked, tx.subject, PurposeVerifyEmail, email, tx.issue);
    }
  }

  lemma SessionsKeepGuesses(db: Tables, settled: map<Subject, Time>, now: Time, tx: Tx)
    requires tx.ReauthenticateWithProof? || tx.IssueLogin? || tx.Rotate? || tx.LogoutCurrent? || tx.LogoutAll?
    requires Fits(db, settled, now, tx)
    ensures After(Run(db, tx)).challenges == db.challenges
  {
    hide SessionsPaced, RunReauthenticateWithProof, RunIssueLogin, RunRotate, RunLogoutCurrent, RunLogoutAll;
    if tx.ReauthenticateWithProof? {
      ReauthenticateWithProofIsPaced(db, now, tx);
    } else if tx.IssueLogin? {
      IssueLoginIsPaced(db, settled, now, tx);
    } else if tx.Rotate? {
      RotateIsPaced(db, settled, now, tx);
    } else {
      LogoutIsPaced(db, now, tx);
    }
  }

  lemma UncheckedKeepGuesses(db: Tables, tx: Tx)
    requires (tx.VerifyEmail? || tx.ClaimAccount? || tx.ResetPassword? || tx.ReauthenticateWithCode?)
    requires SubmissionOf(db, tx).None?
    ensures After(Run(db, tx)) == db
  {
  }

  lemma CheckedGuesses(db: Tables, tx: Tx)
    requires SubmissionOf(db, tx).Some?
    ensures SameGuesses(Submitted(db, SubmissionOf(db, tx).value).challenges, After(Run(db, tx)).challenges)
  {
    hide SubmitCode, SameGuesses;
    if tx.VerifyEmail? {
      VerifyGuesses(db, tx);
    } else if tx.ClaimAccount? {
      ClaimGuesses(db, tx);
    } else if tx.ResetPassword? {
      ResetGuesses(db, tx);
    } else {
      ReauthenticationGuesses(db, tx);
    }
  }

  lemma SignUpGuesses(db: Tables, tx: Tx)
    requires tx.SignUp? && tx.issue.id !in db.challenges
    ensures SameGuesses(db.challenges, After(Run(db, tx)).challenges)
  {
    SignUpKeepsGuesses(db, tx);
    assert Run(db, tx) == RunSignUp(db, tx);
    hide RunSignUp;
  }

  lemma ProviderLoginGuesses(db: Tables, tx: Tx)
    requires tx.ProviderLogin? && tx.issue.id !in db.challenges
    ensures SameGuesses(db.challenges, After(Run(db, tx)).challenges)
  {
    ProviderLoginKeepsGuesses(db, tx);
    hide RunProviderLogin;
  }

  lemma TransactionGuesses(db: Tables, settled: map<Subject, Time>, now: Time, tx: Tx, id: ChallengeId)
    requires Valid(db) && Fits(db, settled, now, tx) && id in db.challenges
    ensures id in After(Run(db, tx)).challenges && After(Run(db, tx)).challenges[id].wrongGuesses ==
      db.challenges[id].wrongGuesses + if WrongSubmission(db, SubmissionOf(db, tx), id) then 1 else 0
  {
    hide Valid, WrongSubmission, Run, Submitted;
    if SubmissionOf(db, tx).Some? {
      SubmittedGuesses(db, SubmissionOf(db, tx).value, id);
      CheckedGuesses(db, tx);
    } else {
      assert !WrongSubmission(db, SubmissionOf(db, tx), id) by { NoSubmission(db, id); }
      if tx.VerifyEmail? || tx.ClaimAccount? || tx.ResetPassword? || tx.ReauthenticateWithCode? {
        UncheckedKeepGuesses(db, tx);
      } else if tx.SignUp? {
        SignUpGuesses(db, tx);
      } else if tx.ProviderLogin? {
        ProviderLoginGuesses(db, tx);
      } else if tx.ReauthenticateWithProof? || tx.IssueLogin? || tx.Rotate? || tx.LogoutCurrent? || tx.LogoutAll? {
        SessionsKeepGuesses(db, settled, now, tx);
      } else {
        RequestsKeepGuesses(db, tx);
      }
    }
  }

  lemma NoSubmission(db: Tables, id: ChallengeId)
    ensures !WrongSubmission(db, None, id)
  {
  }

  ghost predicate WrongGuess(st: State, a: Action, id: ChallengeId) {
    a.Transact? && WrongSubmission(st.db, SubmissionOf(st.db, a.tx), id)
  }

  /**
   How many wrong codes the first `n` actions of a run submitted against the challenge while both clocks found it
   open.
   */
  ghost function WrongGuesses(states: seq<State>, actions: seq<Action>, n: nat, id: ChallengeId): nat
    requires n <= |actions| <= |states|
  {
    if n == 0 then 0
    else WrongGuesses(states, actions, n - 1, id) + if WrongGuess(states[n - 1], actions[n - 1], id) then 1 else 0
  }

  lemma StepGuesses(st: State, a: Action, id: ChallengeId)
    requires Inv(st) && Enabled(st, a) && id in Apply(st, a).db.challenges
    ensures Apply(st, a).db.challenges[id].wrongGuesses ==
      (if id in st.db.challenges then st.db.challenges[id].wrongGuesses else 0) + if WrongGuess(st, a, id) then 1 else 0
  {
    hide Run, Locks, Fits, Valid, TimesOk, HoldsValid, OneHoldPerAccount, OutboxOk, PartitionsOk, SubmissionOf;
    if !a.Transact? {
      OthersKeepAccounts(st, a);
    } else if id in st.db.challenges {
      TransactionGuesses(st.db, st.settled, st.now, a.tx, id);
    } else {
      TransactionIsPaced(st.db, st.settled, st.now, a.tx);
    }
  }

  lemma {:induction false} NotYetGuessed(states: seq<State>, actions: seq<Action>, n: nat, id: ChallengeId)
    requires IsRun(states, actions) && n <= |actions| && id !in states[n].db.challenges
    ensures WrongGuesses(states, actions, n, id) == 0
  {
    hide Enabled, Apply, Inv, SubmissionOf, Open;
    if n > 0 {
      RunAdvances(states, actions, n - 1, n);
      assert id !in states[n - 1].db.challenges;
      NotYetGuessed(states, actions, n - 1, id);
    }
  }

  /**
   Conservation of guesses: the stored counter is exactly the number of wrong codes
   that were compared while both clocks found the challenge open, and never exceeds five.
   */
  lemma {:induction false} GuessesAreCounted(states: seq<State>, actions: seq<Action>, n: nat, id: ChallengeId)
    requires IsRun(states, actions) && n <= |actions| && id in states[n].db.challenges
    ensures states[n].db.challenges[id].wrongGuesses == WrongGuesses(states, actions, n, id) <= 5
  {
    hide Enabled, Apply, Inv, Advances, WrongGuess;
    RunKeeps(states, actions, n);
    assert states[n].db.challenges[id].wrongGuesses <= 5 by { GuessesAreBounded(states[n], id); }
    if n > 0 {
      RunKeeps(states, actions, n - 1);
      StepGuesses(states[n - 1], actions[n - 1], id);
      if id in states[n - 1].db.challenges {
        GuessesAreCounted(states, actions, n - 1, id);
      } else {
        NotYetGuessed(states, actions, n - 1, id);
      }
    }
  }

  lemma GuessesAreBounded(st: State, id: ChallengeId)
    requires Inv(st) && id in st.db.challenges
    ensures 0 <= st.db.challenges[id].wrongGuesses <= 5
    ensures st.db.challenges[id].replacedAt.None? || st.db.challenges[id].consumedAt.None?
  {
    hide TimesOk, HoldsValid, OneHoldPerAccount, OutboxOk, PartitionsOk;
  }

  // ----- Consumption -----

  predicate Consumed(challenges: Challenges, id: ChallengeId) {
    id in challenges && challenges[id].consumedAt.Some?
  }

  // The step that consumes the challenge.
  predicate Consumes(st: State, st': State, id: ChallengeId) {
    id in st.db.challenges && !Consumed(st.db.challenges, id) && Consumed(st'.db.challenges, id)
  }

  /** A challenge is consumed at most once, and never after it was replaced. */
  lemma ConsumedOnce(states: seq<State>, actions: seq<Action>, i: nat, j: nat, id: ChallengeId)
    requires IsRun(states, actions) && i < |actions| && j < |actions|
    requires Consumes(states[i], states[i + 1], id) && Consumes(states[j], states[j + 1], id)
    ensures i == j && states[i].db.challenges[id].replacedAt.None?
  {
    hide Enabled, Apply, Inv;
    RunAdvances(states, actions, i, i + 1);
    if i < j { RunAdvances(states, actions, i + 1, j); }
    if j < i { RunAdvances(states, actions, j + 1, i); }
  }

  /** In every reachable state an account has at most one current challenge of a purpose. */
  lemma OneCurrentCode(
    states: seq<State>, actions: seq<Action>, n: nat, s: Subject, p: Purpose, i: ChallengeId, j: ChallengeId)
    requires IsRun(states, actions) && n < |states|
    requires IsCurrentChallenge(states[n].db.challenges, i, s, p)
    requires IsCurrentChallenge(states[n].db.challenges, j, s, p)
    ensures i == j
  {
    hide Enabled, Apply, Valid, TimesOk, HoldsValid, OneHoldPerAccount, OutboxOk, PartitionsOk;
    RunKeeps(states, actions, n);
    OnlyOneCurrent(states[n].db, i, j);
  }

  // ----- Issue rate -----

  /**
   At a time no earlier than every issue of the account, the check of a request admits a code
   if and only if one more challenge at that time keeps the rate in every hour and every minute.
   */
  lemma CheckIsTheRate(db: Tables, s: Subject, t: Time)
    requires AtMostFiveAnHour(db.challenges)
    requires forall id :: id in db.challenges && db.challenges[id].subject == s ==> db.challenges[id].issuedAt <= t
    ensures CanIssueCode(db, s, t) <==> RateAllows(db.challenges, s, t)
  {
    var recent := IssuedAfter(db, s, t - HOUR);
    forall id ensures id in InHour(db.challenges, s, t - HOUR + 1) <==> id in recent {
    }
    assert InHour(db.challenges, s, t - HOUR + 1) == recent;
    if RateAllows(db.challenges, s, t) {
      assert |InHour(db.challenges, s, t - HOUR + 1)| + 1 <= 5;
    }
    if CanIssueCode(db, s, t) {
      forall from ensures |InHour(db.challenges, s, from)| + (if from <= t < from + 60 * MINUTE then 1 else 0) <= 5 {
        assert InHour(db.challenges, s, from) == IssuedInHour(db.challenges, s, from);
        if from <= t < from + 60 * MINUTE { SubsetIsSmaller(InHour(db.challenges, s, from), recent); }
      }
      forall id | id in db.challenges && db.challenges[id].subject == s
        ensures db.challenges[id].issuedAt + 60 * SECOND <= t
      {
        assert id in recent || db.challenges[id].issuedAt <= t - HOUR;
      }
    }
  }

  /**
   Over all purposes and all issue paths, the unchecked first code included, an account
   gets at most five challenges in any half-open hour, and no two within a minute.
   */
  lemma IssueRate(states: seq<State>, actions: seq<Action>, n: nat, s: Subject, from: Time)
    requires IsRun(states, actions) && n < |states|
    ensures |IssuedInHour(states[n].db.challenges, s, from)| <= 5
    ensures forall i, j :: i in states[n].db.challenges && j in states[n].db.challenges && i != j ==>
      Apart(states[n].db.challenges[i], states[n].db.challenges[j])
  {
    hide Enabled, Apply, Valid, HoldsValid, OneHoldPerAccount, OutboxOk, PartitionsOk;
    RunKeeps(states, actions, n);
  }
}
