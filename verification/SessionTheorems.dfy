/** Refresh tokens and session lifetimes, over every run. */
module SessionTheorems {
  import opened Options
  import opened Clock
  import opened Schema
  import opened Statements
  import opened Consistency
  import opened Transactions
  import opened Effects
  import opened Pacing
  import opened System
  import opened SystemInvariant
  import opened Runs

  // ----- Refresh tokens -----

  lemma StateIsValid(states: seq<State>, actions: seq<Action>, n: nat)
    requires IsRun(states, actions) && n < |states|
    ensures Valid(states[n].db)
  {
    hide Apply, Enabled, Valid, TimesOk, HoldsValid, OneHoldPerAccount, OutboxOk, PartitionsOk;
    RunKeeps(states, actions, n);
  }

  // The session that an earlier lookup found by a token is still the only one that the token can name.
  lemma FoundIsTheSession(db: Tables, token: TokenHash, id: SessionId)
    requires Valid(db)
    ensures FindRefreshSession(db, token) == Some(id) <==> TokenOf(db.sessions, db.rotated, id, token)
  {
    hide AccountsValid, SessionsValid, ChallengesValid, OneCurrent, DeliveriesValid, DeliveriesQueued, EventsValid;
    hide LinksValid, NoticesValid;
  }

  /** Every token hash that a session ever had is its current one or in the rotated set, so a lookup stays good. */
  lemma TokensStay(states: seq<State>, actions: seq<Action>, i: nat, j: nat, id: SessionId, token: TokenHash)
    requires IsRun(states, actions) && i <= j < |states|
    requires TokenOf(states[i].db.sessions, states[i].db.rotated, id, token)
    ensures TokenOf(states[j].db.sessions, states[j].db.rotated, id, token)
    ensures FindRefreshSession(states[i].db, token) == Some(id) && FindRefreshSession(states[j].db, token) == Some(id)
  {
    hide Apply, Enabled, Inv, Valid, AccountsAdvance, ChallengesAdvance, DeliveriesAdvance, EventsAdvance, LinksAdvance;
    RunAdvances(states, actions, i, j);
    assert TokenOf(states[j].db.sessions, states[j].db.rotated, id, states[i].db.sessions[id].token);
    StateIsValid(states, actions, i);
    StateIsValid(states, actions, j);
    FoundIsTheSession(states[i].db, token, id);
    FoundIsTheSession(states[j].db, token, id);
  }

  predicate Refreshes(st: State, a: Action, token: TokenHash) {
    a.Transact? && a.tx.Rotate? && a.tx.spent == token && ReplyOf(RunRotate(st.db, a.tx)) == Accepted
  }

  // A successful refresh moves its token to the rotated set.
  lemma RefreshSpendsToken(states: seq<State>, actions: seq<Action>, i: nat, token: TokenHash)
    requires IsRun(states, actions) && i < |actions| && Refreshes(states[i], actions[i], token)
    ensures token in states[i + 1].db.rotated && token !in states[i].db.rotated
  {
    hide Enabled, Valid;
    StateIsValid(states, actions, i);
    var tx := actions[i].tx;
    assert states[i + 1].db == After(RunRotate(states[i].db, tx));
    CurrentIsNotRotated(states[i].db, tx.login);
  }

  lemma CurrentIsNotRotated(db: Tables, id: SessionId)
    requires Valid(db)
    ensures id in db.sessions ==> db.sessions[id].token !in db.rotated
  {
    hide AccountsValid, SessionsValid, ChallengesValid, OneCurrent, DeliveriesValid, DeliveriesQueued, EventsValid;
    hide LinksValid, NoticesValid;
  }

  lemma RotatedStays(states: seq<State>, actions: seq<Action>, i: nat, j: nat, token: TokenHash)
    requires IsRun(states, actions) && i <= j < |states| && token in states[i].db.rotated
    ensures token in states[j].db.rotated && states[j].db.rotated[token] == states[i].db.rotated[token]
  {
    hide Apply, Enabled, Inv, AccountsAdvance, SessionsAdvance, ChallengesAdvance, DeliveriesAdvance, EventsAdvance;
    hide LinksAdvance;
    RunAdvances(states, actions, i, j);
  }

  /** In every run each refresh token refreshes successfully at most once. */
  lemma RefreshesOnce(states: seq<State>, actions: seq<Action>, i: nat, j: nat, token: TokenHash)
    requires IsRun(states, actions) && i < |actions| && j < |actions|
    requires Refreshes(states[i], actions[i], token) && Refreshes(states[j], actions[j], token)
    ensures i == j
  {
    hide Enabled, Apply, Init, Refreshes, RunRotate;
    RefreshSpendsToken(states, actions, i, token);
    RefreshSpendsToken(states, actions, j, token);
    if i < j { RotatedStays(states, actions, i + 1, j, token); }
    if j < i { RotatedStays(states, actions, j + 1, i, token); }
  }

  lemma RowsStay(states: seq<State>, actions: seq<Action>, i: nat, j: nat, id: SessionId)
    requires IsRun(states, actions) && i <= j < |states| && id in states[i].db.sessions
    ensures id in states[j].db.sessions && SessionAdvances(states[i].db.sessions[id], states[j].db.sessions[id])
  {
    hide Apply, Enabled, Inv, AccountsAdvance, TokensAdvance, ChallengesAdvance, DeliveriesAdvance, EventsAdvance;
    hide LinksAdvance;
    RunAdvances(states, actions, i, j);
  }

  /** A live session of an account that is not retired. */
  predicate Refreshable(db: Tables, id: SessionId, now: Time) {
    && id in db.sessions && Alive(db.sessions[id], now)
    && db.sessions[id].subject in db.accounts && db.accounts[db.sessions[id].subject].retiredAt.None?
  }

  // The session with a new token, idle for 30 days from now at most.
  function Refreshed(s: Session, next: TokenHash, now: Time): Session {
    s.(token := next, idleExpiresAt := if now + 30 * DAY <= s.absoluteExpiresAt
      then now + 30 * DAY else s.absoluteExpiresAt)
  }

  /**
   Exactly what a refresh does, by the presented token, the session's life at both statements and
   the signing callback: a rotated token ends the session, the current one moves it on, and nothing
   else changes.
   */
  lemma RotationOutcome(db: Tables, settled: map<Subject, Time>, now: Time, tx: Tx)
    requires Valid(db) && tx.Rotate? && Fits(db, settled, now, tx)
    ensures var r, id := RunRotate(db, tx), tx.login;
      if !Refreshable(db, id, tx.getAt) then r == (Refused(Unauthenticated), db)
      else if tx.spent in db.rotated then
        && ReplyOf(r) == Replayed && After(r) == db.(sessions := After(r).sessions)
        && EndsOne(db.sessions, After(r).sessions, id, tx.writeAt)
      else if !Alive(db.sessions[id], tx.writeAt) then r == (Refused(Unauthenticated), db)
      else if !tx.signed then r == (Refused(Unavailable), db)
      else r == (Accepted, db.(
        rotated := db.rotated[tx.spent := id],
        sessions := db.sessions[id := Refreshed(db.sessions[id], tx.next, tx.writeAt)]))
  {
    CurrentIsNotRotated(db, tx.login);
    hide Valid;
  }

  /**
   After an accepted refresh the session stays signed in until its expiries, and a refresh with the
   new token is accepted until then.
   */
  lemma RefreshContinues(db: Tables, settled: map<Subject, Time>, now: Time, tx: Tx, again: Tx, t: Time)
    requires Valid(db) && tx.Rotate? && Fits(db, settled, now, tx) && ReplyOf(RunRotate(db, tx)) == Accepted
    requires t < tx.writeAt + 30 * DAY && t < db.sessions[tx.login].absoluteExpiresAt
    requires again.Rotate? && again.login == tx.login && again.spent == tx.next && again.signed
    requires again.getAt <= t && again.writeAt <= t
    ensures tx.login in db.sessions
    ensures SignedIn(After(RunRotate(db, tx)), db.sessions[tx.login].subject, tx.login, t)
    ensures ReplyOf(RunRotate(After(RunRotate(db, tx)), again)) == Accepted
  {
    RotationOutcome(db, settled, now, tx);
    hide Valid, Fits;
  }

  /**
   Presenting a rotated token on a live session signs the session out, and it stays signed out in every later state.
   */
  lemma ReplayRevokesForGood(states: seq<State>, actions: seq<Action>, i: nat, j: nat)
    requires IsRun(states, actions) && i < j < |states| && actions[i].Transact? && actions[i].tx.Rotate?
    requires Refreshable(states[i].db, actions[i].tx.login, actions[i].tx.getAt)
    requires actions[i].tx.spent in states[i].db.rotated
    ensures var id := actions[i].tx.login;
      && id in states[j].db.sessions && Revoked(states[j].db.sessions[id])
      && (forall t :: !Refreshable(states[j].db, id, t))
      && (forall s, t :: !SessionActive(states[j].db, s, id, t))
  {
    hide Valid, Run, Refreshable, RunRotate, Locks;
    StateIsValid(states, actions, i);
    var st, tx := states[i], actions[i].tx;
    assert Enabled(st, actions[i]) && states[i + 1].db == After(Run(st.db, tx));
    RunIsRotate(st.db, tx);
    RotationOutcome(st.db, st.settled, st.now, tx);
    hide IsRun;
    RowsStay(states, actions, i + 1, j, tx.login);
    RevokedIsDead(states[j].db, tx.login);
  }

  lemma RunIsRotate(db: Tables, tx: Tx)
    requires tx.Rotate?
    ensures Run(db, tx) == RunRotate(db, tx)
  {
    hide RunRotate;
  }

  lemma RevokedIsDead(db: Tables, id: SessionId)
    requires id in db.sessions && Revoked(db.sessions[id])
    ensures forall t :: !Refreshable(db, id, t)
    ensures forall s, t :: !SessionActive(db, s, id, t)
  {
  }

  // ----- Lifetimes -----

  /** The absolute expiry is 90 days after creation for good; the idle expiry never goes back and never passes it. */
  lemma LifetimesHold(states: seq<State>, actions: seq<Action>, i: nat, j: nat, id: SessionId)
    requires IsRun(states, actions) && i <= j < |states| && id in states[i].db.sessions
    ensures id in states[j].db.sessions
    ensures var s, r := states[i].db.sessions[id], states[j].db.sessions[id];
      && r.subject == s.subject && r.createdAt == s.createdAt
      && r.absoluteExpiresAt == s.absoluteExpiresAt == s.createdAt + 90 * DAY
      && s.idleExpiresAt <= r.idleExpiresAt <= r.absoluteExpiresAt
  {
    hide IsRun, AccountsValid, TokensValid, ChallengesValid, OneCurrent, DeliveriesValid, DeliveriesQueued;
    hide EventsValid, LinksValid, NoticesValid;
    RowsStay(states, actions, i, j, id);
    StateIsValid(states, actions, i);
    StateIsValid(states, actions, j);
  }

  const ACCESS_LIFETIME := 10 * MINUTE

  function Truncate(t: Time): (r: Time)
    ensures r <= t < r + SECOND && r % SECOND == 0
  {
    t - t % SECOND
  }

  function AccessEnd(issuedAt: Time, absoluteExpiresAt: Time): Time {
    Truncate(Min(issuedAt + ACCESS_LIFETIME, absoluteExpiresAt))
  }

  /** The expiry of an access token: at most ten minutes, never past the session, in whole seconds. */
  method AccessExpiry(issuedAt: Time, absoluteExpiresAt: Time) returns (expires: Time)
    ensures expires == AccessEnd(issuedAt, absoluteExpiresAt)
    ensures expires <= issuedAt + 10 * MINUTE && expires <= absoluteExpiresAt && expires % SECOND == 0
    ensures issuedAt + 10 * MINUTE < expires + SECOND || absoluteExpiresAt < expires + SECOND
  {
    expires := issuedAt + ACCESS_LIFETIME;
    if expires > absoluteExpiresAt {
      expires := absoluteExpiresAt;
    }
    expires := Truncate(expires);
  }

  /**
   Every issued access token, of a new session or of a refresh, expires no later than its session's idle and absolute
   expiry.
   */
  lemma AccessEndsFirst(st: State, tx: Tx, id: SessionId)
    requires Inv(st) && Enabled(st, Transact(tx))
    requires id in After(Run(st.db, tx)).sessions
    requires id !in st.db.sessions || (tx.Rotate? && tx.login == id && ReplyOf(Run(st.db, tx)) == Accepted)
    ensures var s := After(Run(st.db, tx)).sessions[id];
      var issuedAt := if id in st.db.sessions then tx.writeAt else s.createdAt;
      AccessEnd(issuedAt, s.absoluteExpiresAt) <= s.idleExpiresAt <= s.absoluteExpiresAt
  {
    hide TimesOk, HoldsValid, OneHoldPerAccount, OutboxOk, PartitionsOk, Locks, Fits;
    hide Run;
    if id in st.db.sessions {
      RotationExpiry(st.db, tx);
    } else {
      NewSessionRow(st, tx, id);
    }
  }

  lemma RotationExpiry(db: Tables, tx: Tx)
    requires tx.Rotate? && ReplyOf(Run(db, tx)) == Accepted
    ensures tx.login in db.sessions && After(Run(db, tx)).sessions[tx.login].idleExpiresAt ==
      Min(tx.writeAt + IDLE_LIFETIME, After(Run(db, tx)).sessions[tx.login].absoluteExpiresAt)
  {
    assert Run(db, tx) == RunRotate(db, tx);
    hide Run;
  }

  lemma NewSessionRow(st: State, tx: Tx, id: SessionId)
    requires TablesOk(st) && Enabled(st, Transact(tx))
    requires id !in st.db.sessions && id in After(Run(st.db, tx)).sessions
    ensures JustOpened(After(Run(st.db, tx)).sessions[id])
  {
    hide Run, Valid, TimesOk;
    TransactionIsPaced(st.db, st.settled, st.now, tx);
  }
}
