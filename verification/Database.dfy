/**
 The database as an object: one map per table, one method per SQL statement. Each
 method's WHERE clause is the branch, and its contract is the statement's function on
 the tables. A transaction restores the tables of its snapshot when it rolls back.
 */
module Database {
  import opened Options
  import opened Clock
  import opened Schema
  import opened Statements
  import opened Consistency

  predicate IsFirst(events: Events, ids: set<EventId>, e: EventId, now: Time) {
    && e in ids && e in events && Due(events[e], now)
    && forall f :: f in ids && f in events && Due(events[f], now) ==> NoLater(events[e], events[f])
  }

  // The order of the claim statement has a first event among the due ones.
  lemma {:induction false} FirstExists(events: Events, ids: set<EventId>, d: EventId, now: Time)
    requires d in ids && d in events && Due(events[d], now)
    ensures exists e :: IsFirst(events, ids, e, now)
    decreases ids
  {
    var rest := ids - {d};
    if c :| c in rest && c in events && Due(events[c], now) {
      FirstExists(events, rest, c, now);
      var e :| IsFirst(events, rest, e, now);
      if NoLater(events[d], events[e]) {
        assert IsFirst(events, ids, d, now);
      } else {
        assert IsFirst(events, ids, e, now);
      }
    } else {
      assert IsFirst(events, ids, d, now);
    }
  }

  class Store {
    var accounts: Accounts
    var sessions: Sessions
    var rotated: Rotated
    var challenges: Challenges
    var deliveries: Deliveries
    var events: Events
    var notices: Notices
    var links: Links

    constructor ()
      ensures Contents() == EMPTY
    {
      accounts, sessions, rotated, challenges := map[], map[], map[], map[];
      deliveries, events, notices, links := map[], map[], map[], map[];
    }

    function Contents(): Tables
      reads this
    {
      Tables(accounts, sessions, rotated, challenges, deliveries, events, notices, links)
    }

    method Rollback(snapshot: Tables)
      modifies this
      ensures Contents() == snapshot
    {
      accounts, sessions, rotated, challenges := snapshot.accounts, snapshot.sessions, snapshot.rotated,
        snapshot.challenges;
      deliveries, events, notices, links := snapshot.deliveries, snapshot.events, snapshot.notices, snapshot.links;
    }

    // ----- identity_accounts -----

    /** The partial unique index identity_accounts_active_email refuses a second active row. */
    method CreateAccount(
      s: Subject, email: Email, hash: Option<PasswordHash>, verifiedAt: Option<Time>) returns (created: bool)
      requires s !in accounts
      modifies this`accounts
      ensures created == !exists t :: t in old(accounts) && IsActive(old(accounts), t, email)
      ensures Contents() == if created
        then InsertAccount(old(Contents()), s, email, hash, verifiedAt) else old(Contents())
    {
      created := !exists t :: t in accounts && IsActive(accounts, t, email);
      if created {
        accounts := accounts[s := Account(email, hash, verifiedAt, None)];
      }
    }

    method GetActiveAccountByEmail(email: Email) returns (found: Option<Subject>)
      requires AccountsValid(accounts)
      ensures found == FindActive(accounts, email)
    {
      if s :| s in accounts && IsActive(accounts, s, email) {
        found := Some(s);
        assert IsActive(accounts, s, email);
      } else {
        assert forall t :: !IsActive(accounts, t, email);
        found := None;
      }
    }

    method MarkEmailVerified(s: Subject, now: Time) returns (changed: bool)
      modifies this`accounts
      ensures changed == CanVerify(old(Contents()), s)
      ensures Contents() == Statements.MarkEmailVerified(old(Contents()), s, now)
    {
      changed := s in accounts && accounts[s].verifiedAt.None? && accounts[s].retiredAt.None?;
      if changed {
        accounts := accounts[s := accounts[s].(verifiedAt := Some(now))];
      }
    }

    method RetireUnverifiedAccount(s: Subject, now: Time) returns (changed: bool)
      modifies this`accounts
      ensures changed == CanVerify(old(Contents()), s)
      ensures Contents() == Statements.RetireUnverifiedAccount(old(Contents()), s, now)
    {
      changed := s in accounts && accounts[s].verifiedAt.None? && accounts[s].retiredAt.None?;
      if changed {
        accounts := accounts[s := accounts[s].(retiredAt := Some(now))];
      }
    }

    method UpdatePasswordHash(s: Subject, hash: PasswordHash) returns (changed: bool)
      modifies this`accounts
      ensures changed == CanChangePassword(old(Contents()), s)
      ensures Contents() == Statements.UpdatePasswordHash(old(Contents()), s, hash)
    {
      changed := s in accounts && accounts[s].verifiedAt.Some? && accounts[s].retiredAt.None?;
      if changed {
        accounts := accounts[s := accounts[s].(passwordHash := Some(hash))];
      }
    }

    // ----- identity_sessions and identity_rotated_refresh_tokens -----

    method CreateSession(id: SessionId, s: Subject, token: TokenHash, now: Time)
      modifies this`sessions
      ensures Contents() == InsertSession(old(Contents()), id, s, token, now)
    {
      sessions := sessions[id := Session(s, token, now, Some(now), now + 30 * DAY, now + 90 * DAY, None)];
    }

    method FindRefreshSession(token: TokenHash) returns (found: Option<SessionId>)
      requires TokensValid(sessions, rotated)
      ensures found == Schema.FindRefreshSession(Contents(), token)
    {
      if id :| id in sessions && sessions[id].token == token {
        found := Some(id);
      } else if token in rotated {
        found := Some(rotated[token]);
      } else {
        found := None;
      }
    }

    method RevokeAccountSessions(s: Subject, now: Time)
      modifies this`sessions
      ensures Contents() == Statements.RevokeAccountSessions(old(Contents()), s, now)
    {
      sessions := map id | id in sessions ::
        if sessions[id].subject == s
          && sessions[id].revokedAt.None? then sessions[id].(revokedAt := Some(now)) else sessions[id];
      ghost var after := Statements.RevokeAccountSessions(old(Contents()), s, now).sessions;
      assert forall id :: id in after ==> sessions[id] == after[id];
    }

    method RevokeRefreshSession(id: SessionId, now: Time)
      modifies this`sessions
      ensures Contents() == Statements.RevokeRefreshSession(old(Contents()), id, now)
    {
      if id in sessions && sessions[id].revokedAt.None? {
        sessions := sessions[id := sessions[id].(revokedAt := Some(now))];
      } else {
        assert id in sessions ==> sessions[id := sessions[id]] == sessions;
      }
    }

    method RevokeCurrentSession(s: Subject, id: SessionId, now: Time) returns (changed: bool)
      modifies this`sessions
      ensures changed == SessionActive(old(Contents()), s, id, now)
      ensures Contents() == Statements.RevokeCurrentSession(old(Contents()), s, id, now)
    {
      changed := SessionActive(Contents(), s, id, now);
      if changed {
        sessions := sessions[id := sessions[id].(revokedAt := Some(now))];
      }
    }

    method RecordRotatedRefreshToken(spent: TokenHash, id: SessionId)
      modifies this`rotated
      ensures Contents() == Statements.RecordRotatedRefreshToken(old(Contents()), spent, id)
    {
      rotated := rotated[spent := id];
    }

    method RotateCurrentRefreshToken(
      next: TokenHash, id: SessionId, spent: TokenHash, now: Time) returns (changed: bool)
      modifies this`sessions
      ensures changed == CanRotate(old(Contents()), id, spent, now)
      ensures Contents() == Statements.RotateCurrentRefreshToken(old(Contents()), next, id, spent, now)
    {
      changed := id in sessions && sessions[id].token == spent && sessions[id].revokedAt.None?
        && sessions[id].idleExpiresAt > now && sessions[id].absoluteExpiresAt > now;
      if changed {
        var idle := now + 30 * DAY;
        if sessions[id].absoluteExpiresAt < idle {
          idle := sessions[id].absoluteExpiresAt;
        }
        sessions := sessions[id := sessions[id].(token := next, idleExpiresAt := idle)];
      }
    }

    method StampProof(id: SessionId, now: Time)
      modifies this`sessions
      ensures Contents() == Statements.StampProof(old(Contents()), id, now)
    {
      if id in sessions {
        sessions := sessions[id := sessions[id].(provenAt := Some(now))];
      }
    }

    // ----- identity_challenges -----

    method GetCurrentChallenge(s: Subject, p: Purpose) returns (found: Option<ChallengeId>)
      requires OneCurrent(challenges)
      ensures found == FindCurrent(challenges, s, p)
    {
      if id :| id in challenges && IsCurrentChallenge(challenges, id, s, p) {
        assert FindCurrent(challenges, s, p).Some?;
        found := Some(id);
      } else {
        assert forall id :: !IsCurrentChallenge(challenges, id, s, p);
        found := None;
      }
    }

    method ReplaceCurrentChallenge(s: Subject, p: Purpose, now: Time)
      modifies this`challenges
      ensures Contents() == Statements.ReplaceCurrentChallenge(old(Contents()), s, p, now)
    {
      challenges := map id | id in challenges ::
        if challenges[id].subject == s && challenges[id].purpose == p && challenges[id].replacedAt.None?
          && challenges[id].consumedAt.None?
        then challenges[id].(replacedAt := Some(now)) else challenges[id];
      ghost var after := Statements.ReplaceCurrentChallenge(old(Contents()), s, p, now).challenges;
      assert challenges.Keys == after.Keys;
      forall id | id in after ensures challenges[id] == after[id] {
      }
    }

    method RevokeAccountChallenges(s: Subject, now: Time)
      modifies this`challenges
      ensures Contents() == Statements.RevokeAccountChallenges(old(Contents()), s, now)
    {
      challenges := map id | id in challenges ::
        if challenges[id].subject == s && challenges[id].replacedAt.None? && challenges[id].consumedAt.None?
        then challenges[id].(replacedAt := Some(now)) else challenges[id];
      ghost var after := Statements.RevokeAccountChallenges(old(Contents()), s, now).challenges;
      assert forall id :: id in after ==> challenges[id] == after[id];
    }

    method CreateChallenge(id: ChallengeId, s: Subject, p: Purpose, email: Email, code: string, now: Time)
      modifies this`challenges
      ensures Contents() == Statements.CreateChallenge(old(Contents()), id, s, p, email, code, now)
    {
      challenges := challenges[id := Challenge(s, p, email, Verifier(s, email, p, code), 0, now, now + 10 * MINUTE,
        None, None)];
    }

    method ConsumeCurrentChallenge(id: ChallengeId, now: Time) returns (changed: bool)
      modifies this`challenges
      ensures changed == Open(old(Contents()), id, now)
      ensures Contents() == Statements.ConsumeCurrentChallenge(old(Contents()), id, now)
    {
      changed := Open(Contents(), id, now);
      if changed {
        challenges := challenges[id := challenges[id].(consumedAt := Some(now))];
      }
    }

    method IncrementChallengeWrongGuess(id: ChallengeId, now: Time)
      modifies this`challenges
      ensures Contents() == Statements.IncrementChallengeWrongGuess(old(Contents()), id, now)
    {
      if Open(Contents(), id, now) {
        challenges := challenges[id := challenges[id].(wrongGuesses := challenges[id].wrongGuesses + 1)];
      }
    }

    // ----- identity_challenge_deliveries -----

    method StoreChallengeDelivery(id: ChallengeId, m: Material)
      modifies this`deliveries
      ensures Contents() == Statements.StoreChallengeDelivery(old(Contents()), id, m)
    {
      deliveries := deliveries[id := m];
    }

    method DeleteChallengeDelivery(id: ChallengeId) returns (changed: bool)
      modifies this`deliveries
      ensures changed == (id in old(deliveries))
      ensures Contents() == Statements.DeleteChallengeDelivery(old(Contents()), id)
    {
      changed := id in deliveries;
      deliveries := deliveries - {id};
    }

    method DeleteReplacedChallengeDeliveries(s: Subject, p: Purpose)
      modifies this`deliveries
      ensures Contents() == Statements.DeleteReplacedChallengeDeliveries(old(Contents()), s, p)
    {
      deliveries := map id | id in deliveries &&
        !(id in challenges && challenges[id].subject == s && challenges[id].purpose == p
          && challenges[id].replacedAt.Some?) :: deliveries[id];
    }

    method DeleteAccountChallengeDeliveries(s: Subject)
      modifies this`deliveries
      ensures Contents() == Statements.DeleteAccountChallengeDeliveries(old(Contents()), s)
    {
      deliveries := map id | id in deliveries && !(id in challenges && challenges[id].subject == s) :: deliveries[id];
    }

    method PurgeTerminal(locked: set<Subject>, now: Time)
      modifies this`deliveries
      ensures Contents() == PurgeTerminalDeliveries(old(Contents()), locked, now)
    {
      deliveries := map id | id in deliveries
        && !(Purgeable(Contents(), id, now) && challenges[id].subject !in locked) :: deliveries[id];
    }

    // ----- identity_outbox_events, identity_password_change_notices and identity_provider_links -----

    method CreateOutboxEvent(e: EventId, id: ChallengeId, now: Time)
      modifies this`events
      ensures Contents() == Statements.CreateOutboxEvent(old(Contents()), e, id, now)
    {
      events := events[e := Event(id, now, now, 0, None, None)];
    }

    /** Claims the due event that comes first in the order of the statement, if one is due. */
    method ClaimOutboxEvent(owner: Owner, now: Time) returns (claimed: Option<EventId>)
      modifies this`events
      ensures claimed.None? ==> Contents() == old(Contents()) && forall e :: e in events ==> !Due(events[e], now)
      ensures claimed.Some? ==>
        IsNext(old(events), claimed.value, now)
          && Contents() == Statements.ClaimOutboxEvent(old(Contents()), claimed.value, owner, now)
    {
      if d :| d in events && Due(events[d], now) {
        FirstExists(events, events.Keys, d, now);
        ghost var e :| IsFirst(events, events.Keys, e, now);
        assert IsNext(events, e, now);
      }
      if e :| e in events && IsNext(events, e, now) {
        claimed := Some(e);
        events := events[e := events[e].(claim := Some(Claim(owner, now + 30 * SECOND)))];
      } else {
        claimed := None;
      }
    }

    method MarkOutboxPublished(e: EventId, owner: Owner, now: Time) returns (changed: bool)
      modifies this`events
      ensures changed == HoldsClaim(old(Contents()), e, owner, now)
      ensures Contents() == Statements.MarkOutboxPublished(old(Contents()), e, owner, now)
    {
      changed := HoldsClaim(Contents(), e, owner, now);
      if changed {
        events := events[e := events[e].(publishedAt := Some(now), claim := None)];
      }
    }

    method ReleaseOutboxClaim(e: EventId, owner: Owner, nextAttemptAt: Time, now: Time) returns (changed: bool)
      modifies this`events
      ensures changed == HoldsClaim(old(Contents()), e, owner, now)
      ensures Contents() == Statements.ReleaseOutboxClaim(old(Contents()), e, owner, nextAttemptAt, now)
    {
      changed := HoldsClaim(Contents(), e, owner, now);
      if changed {
        events := events[e := events[e].(attemptCount := events[e].attemptCount + 1, nextAttemptAt := nextAttemptAt,
          claim := None)];
      }
    }

    method QueuePasswordChangeNotice(n: NoticeId, s: Subject, now: Time)
      modifies this`notices
      ensures Contents() == Statements.QueuePasswordChangeNotice(old(Contents()), n, s, now)
    {
      if s in accounts && accounts[s].verifiedAt.Some? && accounts[s].retiredAt.None? {
        notices := notices[n := Notice(s, accounts[s].email, now, now, 0)];
      }
    }

    method CreateProviderLink(who: ProviderIdentity, s: Subject) returns (created: bool)
      modifies this`links
      ensures created == (who !in old(links))
      ensures Contents() == if created then Statements.CreateProviderLink(old(Contents()), who, s) else old(Contents())
    {
      created := who !in links;
      if created {
        links := links[who := s];
      }
    }
  }
}
