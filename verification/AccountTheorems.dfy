/** Passwords and the life of an account, over every run. */
module AccountTheorems {
  import opened Options
  import opened Clock
  import opened Schema
  import opened Statements
  import opened Consistency
  import opened Transactions
  import opened TransactionProofs
  import opened Pacing
  import opened System
  import opened SystemInvariant
  import opened Runs

  ghost predicate SameAccounts(st: State, st': State) {
    && st'.db.accounts == st.db.accounts && st'.db.sessions == st.db.sessions && st'.db.rotated == st.db.rotated
    && st'.db.challenges == st.db.challenges && st'.db.links == st.db.links && st'.hashes == st.hashes
  }

  lemma BeginKeepsAccounts(st: State, p: nat, h: HoldId, at: Time)
    requires InPhase(st, p, true) && WellIndexed(st.partitions[p])
    ensures SameAccounts(st, BeginDelivery(st, p, h, at))
  {
    hide Resettle, IsCurrentDelivery, DeleteChallengeDelivery;
    var id := st.partitions[p].log[st.partitions[p].phase.index].challenge;
    DeletionKeepsOtherTables(st.db, id);
    assert BeginDelivery(st, p, h, at).db == st.db
      || BeginDelivery(st, p, h, at).db == DeleteChallengeDelivery(st.db, id);
  }

  lemma DeletionKeepsOtherTables(db: Tables, id: ChallengeId)
    ensures DeleteChallengeDelivery(db, id) == db.(deliveries := DeleteChallengeDelivery(db, id).deliveries)
  {
  }

  lemma FinishKeepsAccounts(st: State, h: HoldId, heardBy: Option<nat>)
    requires h in st.holds
    requires heardBy.Some? ==> heardBy.value < |st.partitions| && st.partitions[heardBy.value].phase.Sending?
    ensures SameAccounts(st, FinishDelivery(st, h, heardBy))
  {
    hide Resettle;
  }

  lemma PurgeKeepsOtherTables(db: Tables, locked: set<Subject>, at: Time)
    ensures PurgeTerminalDeliveries(db, locked, at) ==
      db.(deliveries := PurgeTerminalDeliveries(db, locked, at).deliveries)
  {
  }

  // Only account transactions write accounts, sessions, challenges, links and drawn hashes.
  lemma OthersKeepAccounts(st: State, a: Action)
    requires Enabled(st, a) && !a.Transact?
    ensures SameAccounts(st, Apply(st, a))
  {
    hide Fits, Run, Locks, PurgeLocks, Resettle, RecordOf, HeldSubjects, BeginDelivery, FinishDelivery;
    hide PurgeTerminalDeliveries;
    if a.Begin? {
      BeginKeepsAccounts(st, a.p, a.hold, a.at);
    } else if a.Finish? {
      FinishKeepsAccounts(st, a.hold, a.heardBy);
    } else if a.Purge? {
      PurgeKeepsOtherTables(st.db, a.locked, a.at);
    }
  }

  // ----- Password reset -----

  ghost predicate Resets(st: State, a: Action, s: Subject) {
    && a.Transact? && a.tx.ResetPassword? && FindActive(st.db.accounts, a.tx.email) == Some(s)
    && ReplyOf(RunResetPassword(st.db, a.tx)) == Accepted
  }

  lemma ResetApplies(db: Tables, s: Subject, id: ChallengeId, hash: PasswordHash, notice: NoticeId, now: Time)
    requires CanChangePassword(db, s)
    ensures var db' := ApplyPasswordReset(db, s, id, hash, notice, now);
      && s in db'.accounts && db'.accounts[s] == db.accounts[s].(passwordHash := Some(hash))
      && (forall k :: k in db'.sessions && db'.sessions[k].subject == s ==> Revoked(db'.sessions[k]))
      && (forall k ::
            && k in db'.challenges && db'.challenges[k].subject == s
            && db'.challenges[k].purpose == PurposePasswordReset ==>
            !Current(db'.challenges[k]))
      && notice in db'.notices && db'.notices[notice] == Notice(s, db.accounts[s].email, now, now, 0)
  {
  }

  lemma SubmissionKeepsAccounts(db: Tables, s: Subject, p: Purpose, code: string, appNow: Time, guessAt: Time)
    requires s in db.accounts
    ensures SubmitCode(db, s, p, code, appNow, guessAt).db.accounts == db.accounts
  {
  }

  /** A reset that commits changes the hash, signs every session out, leaves no reset code and queues the notice. */
  lemma ResetCommits(db: Tables, tx: Tx, s: Subject)
    requires tx.ResetPassword? && FindActive(db.accounts, tx.email) == Some(s)
    requires ReplyOf(RunResetPassword(db, tx)) == Accepted
    ensures var db' := After(RunResetPassword(db, tx));
      && CanRecover(db.accounts[s]) && s in db'.accounts
      && db'.accounts[s] == db.accounts[s].(passwordHash := Some(tx.hash))
      && (forall k :: k in db'.sessions && db'.sessions[k].subject == s ==> Revoked(db'.sessions[k]))
      && (forall k ::
            && k in db'.challenges && db'.challenges[k].subject == s
            && db'.challenges[k].purpose == PurposePasswordReset ==>
            !Current(db'.challenges[k]))
      && tx.notice in db'.notices
      && db'.notices[tx.notice] == Notice(s, db.accounts[s].email, tx.writeAt, tx.writeAt, 0)
  {
    hide SubmitCode, ApplyPasswordReset;
    SubmissionKeepsAccounts(db, s, PurposePasswordReset, tx.code, tx.appNow, tx.guessAt);
    var g := SubmitCode(db, s, PurposePasswordReset, tx.code, tx.appNow, tx.guessAt);
    ResetApplies(g.db, s, g.id, tx.hash, tx.notice, tx.writeAt);
  }

  // The account's password is none of the hashes that were drawn before.
  predicate HashIsNot(accounts: Accounts, s: Subject, before: set<PasswordHash>) {
    s in accounts && (accounts[s].passwordHash.None? || accounts[s].passwordHash.value !in before)
  }

  lemma StepKeepsNewHash(st: State, a: Action, s: Subject, before: set<PasswordHash>)
    requires Inv(st) && Enabled(st, a) && HashIsNot(st.db.accounts, s, before) && before <= st.hashes
    ensures HashIsNot(Apply(st, a).db.accounts, s, before)
  {
    hide Run, Locks, Fits, Valid, TimesOk, HoldsValid, OneHoldPerAccount, OutboxOk, PartitionsOk;
    if a.Transact? {
      TransactionIsPaced(st.db, st.settled, st.now, a.tx);
      TransactStepAdvances(st, a.tx);
    } else {
      OthersKeepAccounts(st, a);
    }
  }

  lemma {:induction false} NewHashStays(
    states: seq<State>, actions: seq<Action>, i: nat, j: nat, s: Subject, before: set<PasswordHash>)
    requires IsRun(states, actions) && i <= j < |states| && HashIsNot(states[i].db.accounts, s, before)
    requires before <= states[i].hashes
    ensures HashIsNot(states[j].db.accounts, s, before)
    decreases j - i
  {
    hide Enabled, Apply, Inv, Advances, HashIsNot;
    if i < j {
      NewHashStays(states, actions, i, j - 1, s, before);
      RunAdvances(states, actions, i, j - 1);
      StepKeepsNewHash(states[j - 1], actions[j - 1], s, before);
    }
  }

  lemma HashWasDrawn(st: State, s: Subject)
    requires Inv(st) && s in st.db.accounts && st.db.accounts[s].passwordHash.Some?
    ensures st.db.accounts[s].passwordHash.value in st.hashes
  {
    hide Valid, HoldsValid, OneHoldPerAccount, OutboxOk, PartitionsOk, IdleBounded, IssuedBefore, AtMostFiveAnHour;
    hide AMinuteApart;
  }

  lemma ResetHashIsNew(st: State, a: Action, s: Subject)
    requires Enabled(st, a) && Resets(st, a, s)
    ensures HashIsNot(Apply(st, a).db.accounts, s, st.hashes)
  {
    hide RunResetPassword, Fits, Locks;
    ResetCommits(st.db, a.tx, s);
  }

  /**
   A login that matched the account's password before a reset cannot open a session
   once the reset has committed, however the two requests interleave.
   */
  lemma NoStaleLogin(states: seq<State>, actions: seq<Action>, i: nat, j: nat, k: nat, s: Subject, h: PasswordHash)
    requires IsRun(states, actions) && i <= j < k < |actions|
    requires s in states[i].db.accounts && states[i].db.accounts[s].passwordHash == Some(h)
    requires Resets(states[j], actions[j], s)
    requires actions[k].Transact? && actions[k].tx.IssueLogin? && actions[k].tx.caller == s
    requires actions[k].tx.foundHash == h
    ensures Run(states[k].db, actions[k].tx) == (Refused(InvalidCredentials), states[k].db)
  {
    hide Enabled, Apply, Inv, Advances, Resets;
    RunKeeps(states, actions, i);
    HashWasDrawn(states[i], s);
    RunAdvances(states, actions, i, j);
    ResetHashIsNew(states[j], actions[j], s);
    RunAdvances(states, actions, j, j + 1);
    NewHashStays(states, actions, j + 1, k, s, states[j].hashes);
  }

  /** Every session that the account had when the reset committed is signed out in every later state. */
  lemma ResetSignsOut(states: seq<State>, actions: seq<Action>, j: nat, k: nat, s: Subject, id: SessionId)
    requires IsRun(states, actions) && j < k < |states| && Resets(states[j], actions[j], s)
    requires id in states[j].db.sessions && states[j].db.sessions[id].subject == s
    ensures id in states[k].db.sessions && Revoked(states[k].db.sessions[id])
  {
    hide Inv, AccountsAdvance, TokensAdvance, ChallengesAdvance, DeliveriesAdvance, EventsAdvance, LinksAdvance;
    hide RunResetPassword, Enabled;
    ResetCommits(states[j].db, actions[j].tx, s);
    RunAdvances(states, actions, j, j + 1);
    RunAdvances(states, actions, j + 1, k);
  }

  // ----- The life of an account -----

  /** In every reachable state at most one account that is not retired has a given email. */
  lemma OneAccountPerEmail(states: seq<State>, actions: seq<Action>, n: nat, email: Email, s: Subject, t: Subject)
    requires IsRun(states, actions) && n < |states|
    requires IsActive(states[n].db.accounts, s, email) && IsActive(states[n].db.accounts, t, email)
    ensures s == t
  {
    hide Enabled, Apply, TimesOk, HoldsValid, OneHoldPerAccount, OutboxOk, PartitionsOk;
    RunKeeps(states, actions, n);
  }

  /** A verified account stays verified, with the same time, and is never retired. */
  lemma VerifiedForGood(states: seq<State>, actions: seq<Action>, i: nat, j: nat, s: Subject)
    requires IsRun(states, actions) && i <= j < |states| && s in states[i].db.accounts
    requires Verified(states[i].db.accounts[s])
    ensures s in states[j].db.accounts && states[j].db.accounts[s].verifiedAt == states[i].db.accounts[s].verifiedAt
    ensures !Retired(states[j].db.accounts[s]) && states[j].db.accounts[s].email == states[i].db.accounts[s].email
  {
    hide Enabled, Apply, TimesOk, HoldsValid, OneHoldPerAccount, OutboxOk, PartitionsOk;
    hide SessionsAdvance, TokensAdvance, ChallengesAdvance, DeliveriesAdvance, EventsAdvance, LinksAdvance;
    hide SessionsValid, TokensValid, ChallengesValid, OneCurrent, DeliveriesValid, DeliveriesQueued, EventsValid;
    hide LinksValid, NoticesValid;
    RunAdvances(states, actions, i, j);
  }

  predicate RetiredAccount(accounts: Accounts, s: Subject) {
    s in accounts && Retired(accounts[s])
  }

  ghost predicate SessionsFrozen(sessions: Sessions, sessions': Sessions, s: Subject) {
    && (forall id :: id in sessions && sessions[id].subject == s ==> id in sessions' && sessions'[id] == sessions[id])
    && (forall id :: id in sessions' && sessions'[id].subject == s ==>
          id in sessions && sessions'[id] == sessions[id] && Revoked(sessions'[id]))
  }

  ghost predicate ChallengesFrozen(challenges: Challenges, challenges': Challenges, s: Subject) {
    && (forall id :: id in challenges && challenges[id].subject == s ==>
         id in challenges' && challenges'[id] == challenges[id])
    && (forall id :: id in challenges' && challenges'[id].subject == s ==>
          id in challenges && challenges'[id] == challenges[id] && !Current(challenges'[id]))
  }

  ghost predicate NoMaterial(challenges: Challenges, deliveries: Deliveries, s: Subject) {
    forall id :: id in deliveries ==> id in challenges && challenges[id].subject != s
  }

  // The rows of a retired account and everything that hangs on it are as they were.
  ghost predicate Frozen(db: Tables, db': Tables, s: Subject) {
    && s in db.accounts && s in db'.accounts && db'.accounts[s] == db.accounts[s]
    && SessionsFrozen(db.sessions, db'.sessions, s)
    && ChallengesFrozen(db.challenges, db'.challenges, s)
    && NoMaterial(db'.challenges, db'.deliveries, s)
  }

  lemma ReflexiveFrozen(db: Tables, s: Subject)
    requires Valid(db) && RetiredAccount(db.accounts, s)
    ensures Frozen(db, db, s)
  {
  }

  lemma SessionsFreeze(db: Tables, db': Tables, s: Subject, now: Time, locked: set<Subject>)
    requires SessionsValid(db.accounts, db.sessions) && SessionsValid(db'.accounts, db'.sessions)
    requires SessionsAdvance(db.sessions, db'.sessions)
    requires RetiredAccount(db.accounts, s) && RetiredAccount(db'.accounts, s)
    requires SessionsPaced(db, db'.sessions, now, locked)
    ensures SessionsFrozen(db.sessions, db'.sessions, s)
  {
  }

  lemma ChallengesFreeze(
    db: Tables, db': Tables, s: Subject, settled: map<Subject, Time>, now: Time, locked: set<Subject>)
    requires ChallengesValid(db.accounts, db.challenges) && ChallengesValid(db'.accounts, db'.challenges)
    requires ChallengesAdvance(db.challenges, db'.challenges)
    requires RetiredAccount(db.accounts, s) && RetiredAccount(db'.accounts, s)
    requires IssuePaced(db, db'.challenges, settled, now, locked)
    ensures ChallengesFrozen(db.challenges, db'.challenges, s)
  {
  }

  lemma TransactFreezes(st: State, a: Action, s: Subject)
    requires Inv(st) && Enabled(st, a) && a.Transact? && RetiredAccount(st.db.accounts, s)
    ensures Frozen(st.db, Apply(st, a).db, s)
  {
    hide Run, Locks, Fits, TimesOk, HoldsValid, OneHoldPerAccount, OutboxOk, PartitionsOk;
    hide SessionsFrozen, ChallengesFrozen, SessionsPaced, IssuePaced, HashPaced;
    var st' := Apply(st, a);
    assert Valid(st'.db) by { TransactKeepsTables(st, a.tx); }
    TransactionIsPaced(st.db, st.settled, st.now, a.tx);
    TransactStepAdvances(st, a.tx);
    assert AccountAdvances(st.db.accounts[s], st'.db.accounts[s]);
    SessionsFreeze(st.db, st'.db, s, st.now, Locks(st.db, a.tx));
    ChallengesFreeze(st.db, st'.db, s, st.settled, st.now, Locks(st.db, a.tx));
  }

  lemma StepFreezes(st: State, a: Action, s: Subject)
    requires Inv(st) && Enabled(st, a) && RetiredAccount(st.db.accounts, s)
    ensures Frozen(st.db, Apply(st, a).db, s)
  {
    hide Apply, Enabled, Frozen, Valid;
    if a.Transact? {
      TransactFreezes(st, a, s);
    } else {
      OthersKeepAccounts(st, a);
      StepKeeps(st, a);
      ReflexiveFrozen(st.db, s);
      ReflexiveFrozen(Apply(st, a).db, s);
      SameRowsFrozen(st.db, Apply(st, a).db, s);
    }
  }

  lemma SameRowsFrozen(db: Tables, db': Tables, s: Subject)
    requires Frozen(db, db, s) && Frozen(db', db', s)
    requires db'.accounts == db.accounts && db'.sessions == db.sessions && db'.challenges == db.challenges
    ensures Frozen(db, db', s)
  {
  }

  lemma FrozenIsTransitive(a: Tables, b: Tables, c: Tables, s: Subject)
    requires Frozen(a, b, s) && Frozen(b, c, s)
    ensures Frozen(a, c, s)
  {
  }

  /**
   A retired account has only revoked sessions, no current challenge and no delivery
   material, and no later step changes its row or any of its sessions or challenges,
   or adds one.
   */
  lemma {:induction false} RetiredIsFrozen(states: seq<State>, actions: seq<Action>, i: nat, j: nat, s: Subject)
    requires IsRun(states, actions) && i <= j < |states| && RetiredAccount(states[i].db.accounts, s)
    ensures Frozen(states[i].db, states[j].db, s)
    decreases j - i
  {
    hide Enabled, Apply, Frozen, Valid, TimesOk, HoldsValid, OneHoldPerAccount, OutboxOk, PartitionsOk;
    if i == j {
      RunKeeps(states, actions, i);
      ReflexiveFrozen(states[i].db, s);
    } else {
      RetiredIsFrozen(states, actions, i, j - 1, s);
      assert RetiredAccount(states[j - 1].db.accounts, s) by { FrozenIsRetired(states[i].db, states[j - 1].db, s); }
      RunKeeps(states, actions, j - 1);
      StepFreezes(states[j - 1], actions[j - 1], s);
      FrozenIsTransitive(states[i].db, states[j - 1].db, states[j].db, s);
    }
  }

  lemma FrozenIsRetired(db: Tables, db': Tables, s: Subject)
    requires Frozen(db, db', s) && RetiredAccount(db.accounts, s)
    ensures RetiredAccount(db'.accounts, s)
  {
    hide SessionsFrozen, ChallengesFrozen, NoMaterial;
  }

  /** A provider identity whose linked account was retired by a claim can never log in again: its link stays. */
  lemma RetiredLinkNeverLogsIn(states: seq<State>, actions: seq<Action>, i: nat, j: nat, who: ProviderIdentity)
    requires IsRun(states, actions) && i <= j < |actions|
    requires who in states[i].db.links && RetiredAccount(states[i].db.accounts, states[i].db.links[who])
    requires actions[j].Transact? && actions[j].tx.ProviderLogin? && actions[j].tx.who == who
    ensures ReplyOf(Run(states[j].db, actions[j].tx)).Refused?
    ensures After(Run(states[j].db, actions[j].tx)) == states[j].db
  {
    hide Enabled, Apply, Inv, SessionsAdvance, TokensAdvance, ChallengesAdvance, DeliveriesAdvance, EventsAdvance;
    RunAdvances(states, actions, i, j);
    var db := states[j].db;
    assert who in db.links && RetiredAccount(db.accounts, db.links[who]);
    assert Run(db, actions[j].tx) == RunProviderLogin(db, actions[j].tx);
    hide Run;
  }
}
