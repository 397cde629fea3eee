/**
 What every committed state of the Identity tables satisfies (`Valid`), and how
 one committed state may follow another (`Follows`). Every predicate names only
 the tables it speaks about. The lemmas treat whole tables at a time: a changed
 row of an existing table, or a new row; each SQL statement is an instance.
 */
module Consistency {
  import opened Options
  import opened Clock
  import opened Schema
  import opened Statements
  import opened ChallengeCheck

  type Accounts = map<Subject, Account>
  type Sessions = map<SessionId, Session>
  type Rotated = map<TokenHash, SessionId>
  type Challenges = map<ChallengeId, Challenge>
  type Deliveries = map<ChallengeId, Material>
  type Events = map<EventId, Event>
  type Notices = map<NoticeId, Notice>
  type Links = map<ProviderIdentity, Subject>

  // ----- One-state invariants -----

  ghost predicate AccountsValid(accounts: Accounts) {
    && (forall s :: s in accounts && Retired(accounts[s]) ==> !Verified(accounts[s]))
    && (forall s, t ::
          s in accounts && t in accounts && !Retired(accounts[s]) && !Retired(accounts[t])
            && accounts[s].email == accounts[t].email
          ==> s == t)
  }

  ghost predicate SessionsValid(accounts: Accounts, sessions: Sessions) {
    forall id :: id in sessions ==>
      && sessions[id].subject in accounts
      && (Retired(accounts[sessions[id].subject]) ==> Revoked(sessions[id]))
      && sessions[id].idleExpiresAt <= sessions[id].absoluteExpiresAt == sessions[id].createdAt + ABSOLUTE_LIFETIME
  }

  ghost predicate TokensValid(sessions: Sessions, rotated: Rotated) {
    && (forall id :: id in sessions ==> sessions[id].token !in rotated)
    && (forall i, j :: i in sessions && j in sessions && sessions[i].token == sessions[j].token ==> i == j)
    && (forall t :: t in rotated ==> rotated[t] in sessions)
  }

  predicate ChallengeValid(a: Account, c: Challenge) {
    && c.email == a.email
    && c.verifier == Verifier(c.subject, c.email, c.purpose, c.verifier.code) && ValidVerificationCode(c.verifier.code)
    && 0 <= c.wrongGuesses <= 5
    && c.expiresAt == c.issuedAt + CODE_LIFETIME
    && (c.replacedAt.None? || c.consumedAt.None?)
    && (Retired(a) ==> !Current(c))
    && (NeedsVerifiedEmail(c.purpose) ==> Verified(a))
  }

  ghost predicate ChallengesValid(accounts: Accounts, challenges: Challenges) {
    forall id :: id in challenges ==>
      challenges[id].subject in accounts && ChallengeValid(accounts[challenges[id].subject], challenges[id])
  }

  ghost predicate OneCurrent(challenges: Challenges) {
    forall i, j ::
      && i in challenges && j in challenges && Current(challenges[i]) && Current(challenges[j])
      && challenges[i].subject == challenges[j].subject && challenges[i].purpose == challenges[j].purpose
      ==> i == j
  }

  function Seal(id: ChallengeId, c: Challenge): Material {
    Sealed(id, c.purpose, c.subject, c.email, c.verifier.code)
  }

  ghost predicate HasEvent(events: Events, id: ChallengeId) {
    exists e :: e in events && events[e].challenge == id
  }

  ghost predicate DeliveriesValid(accounts: Accounts, challenges: Challenges, deliveries: Deliveries) {
    forall id :: id in deliveries ==>
      && id in challenges && deliveries[id] == Seal(id, challenges[id])
      && challenges[id].subject in accounts && !Retired(accounts[challenges[id].subject])
  }

  ghost predicate DeliveriesQueued(deliveries: Deliveries, events: Events) {
    forall id :: id in deliveries ==> HasEvent(events, id)
  }

  ghost predicate EventsValid(challenges: Challenges, events: Events) {
    && (forall e :: e in events ==> events[e].challenge in challenges)
    && (forall e, f :: e in events && f in events && events[e].challenge == events[f].challenge ==> e == f)
  }

  ghost predicate LinksValid(accounts: Accounts, links: Links) {
    forall who :: who in links ==> links[who] in accounts
  }

  ghost predicate NoticesValid(accounts: Accounts, notices: Notices) {
    forall n :: n in notices ==>
      && notices[n].subject in accounts
      && Verified(accounts[notices[n].subject]) && !Retired(accounts[notices[n].subject])
      && notices[n].email == accounts[notices[n].subject].email
  }

  ghost predicate Valid(db: Tables) {
    && AccountsValid(db.accounts)
    && SessionsValid(db.accounts, db.sessions)
    && TokensValid(db.sessions, db.rotated)
    && ChallengesValid(db.accounts, db.challenges)
    && OneCurrent(db.challenges)
    && DeliveriesValid(db.accounts, db.challenges, db.deliveries)
    && DeliveriesQueued(db.deliveries, db.events)
    && EventsValid(db.challenges, db.events)
    && LinksValid(db.accounts, db.links)
    && NoticesValid(db.accounts, db.notices)
  }

  // ----- Two-state invariants -----

  predicate AccountAdvances(a: Account, b: Account) {
    && b.email == a.email
    && (Verified(a) ==> b.verifiedAt == a.verifiedAt)
    && (Retired(a) ==> b == a)
  }

  predicate SessionAdvances(s: Session, r: Session) {
    && r.subject == s.subject && r.createdAt == s.createdAt && r.absoluteExpiresAt == s.absoluteExpiresAt
    && s.idleExpiresAt <= r.idleExpiresAt
    && (Revoked(s) ==> r == s)
  }

  predicate ChallengeAdvances(c: Challenge, d: Challenge) {
    && d.subject == c.subject && d.purpose == c.purpose && d.email == c.email && d.verifier == c.verifier
    && d.issuedAt == c.issuedAt && d.expiresAt == c.expiresAt
    && c.wrongGuesses <= d.wrongGuesses
    && (!Current(c) ==> d == c)
  }

  predicate EventAdvances(e: Event, f: Event) {
    && f.challenge == e.challenge && f.createdAt == e.createdAt
    && (e.publishedAt.Some? ==> f.publishedAt == e.publishedAt)
  }

  ghost predicate AccountsAdvance(before: Accounts, after: Accounts) {
    forall s :: s in before ==> s in after && AccountAdvances(before[s], after[s])
  }

  ghost predicate SessionsAdvance(before: Sessions, after: Sessions) {
    forall id :: id in before ==> id in after && SessionAdvances(before[id], after[id])
  }

  ghost predicate TokensAdvance(sessions: Sessions, rotated: Rotated, sessions': Sessions, rotated': Rotated) {
    && (forall id :: id in sessions ==> TokenOf(sessions', rotated', id, sessions[id].token))
    && (forall t :: t in rotated ==> t in rotated' && rotated'[t] == rotated[t])
  }

  ghost predicate ChallengesAdvance(before: Challenges, after: Challenges) {
    forall id :: id in before ==> id in after && ChallengeAdvances(before[id], after[id])
  }

  // The material of an existing challenge never comes back, and never changes.
  ghost predicate DeliveriesAdvance(challenges: Challenges, before: Deliveries, after: Deliveries) {
    forall id :: id in after && id in challenges ==> id in before && after[id] == before[id]
  }

  ghost predicate EventsAdvance(before: Events, after: Events) {
    forall e :: e in before ==> e in after && EventAdvances(before[e], after[e])
  }

  ghost predicate LinksAdvance(before: Links, after: Links) {
    forall who :: who in before ==> who in after && after[who] == before[who]
  }

  ghost predicate Advances(db: Tables, db': Tables) {
    && AccountsAdvance(db.accounts, db'.accounts)
    && SessionsAdvance(db.sessions, db'.sessions)
    && TokensAdvance(db.sessions, db.rotated, db'.sessions, db'.rotated)
    && ChallengesAdvance(db.challenges, db'.challenges)
    && DeliveriesAdvance(db.challenges, db.deliveries, db'.deliveries)
    && EventsAdvance(db.events, db'.events)
    && LinksAdvance(db.links, db'.links)
  }

  // The rows of every account but the locked ones stay as they are.
  ghost predicate AccountsFramed(before: Accounts, after: Accounts, locked: set<Subject>) {
    forall s :: s in before && s !in locked ==> s in after && after[s] == before[s]
  }

  ghost predicate ChallengesFramed(before: Challenges, after: Challenges, locked: set<Subject>) {
    forall id :: id in before && before[id].subject !in locked ==> id in after && after[id] == before[id]
  }

  ghost predicate DeliveriesFramed(
    challenges: Challenges, before: Deliveries, after: Deliveries, locked: set<Subject>)
  {
    forall id :: id in before && id in challenges && challenges[id].subject !in locked ==>
      id in after && after[id] == before[id]
  }

  ghost predicate Frames(db: Tables, db': Tables, locked: set<Subject>) {
    && AccountsFramed(db.accounts, db'.accounts, locked)
    && ChallengesFramed(db.challenges, db'.challenges, locked)
    && DeliveriesFramed(db.challenges, db.deliveries, db'.deliveries, locked)
  }

  // Only a replaced or consumed challenge loses its delivery material.
  ghost predicate MaterialKept(challenges: Challenges, before: Deliveries, challenges': Challenges, after: Deliveries) {
    forall id :: id in before && id in challenges && id !in after ==> id in challenges' && !Current(challenges'[id])
  }

  // Existing events stay as they are; a new event belongs to a new challenge, unpublished and unclaimed.
  ghost predicate EventsKept(challenges: Challenges, before: Events, after: Events) {
    && (forall e :: e in before ==> e in after && after[e] == before[e])
    && (forall e :: e in after && e !in before ==>
          after[e].publishedAt.None? && after[e].claim.None? && after[e].challenge !in challenges)
  }

  /** Statements of one account transaction that holds the row locks of `locked`. */
  ghost predicate Follows(db: Tables, db': Tables, locked: set<Subject>) {
    && Advances(db, db')
    && Frames(db, db', locked)
    && MaterialKept(db.challenges, db.deliveries, db'.challenges, db'.deliveries)
    && EventsKept(db.challenges, db.events, db'.events)
  }

  lemma AdvancesIsTransitive(a: Tables, b: Tables, c: Tables)
    requires Advances(a, b) && Advances(b, c)
    ensures Advances(a, c)
  {
    TokensAdvanceIsTransitive(a, b, c);
    assert DeliveriesAdvance(a.challenges, a.deliveries, c.deliveries);
  }

  lemma TokensAdvanceIsTransitive(a: Tables, b: Tables, c: Tables)
    requires TokensAdvance(a.sessions, a.rotated, b.sessions, b.rotated)
    requires TokensAdvance(b.sessions, b.rotated, c.sessions, c.rotated)
    ensures TokensAdvance(a.sessions, a.rotated, c.sessions, c.rotated)
  {
    forall id | id in a.sessions ensures TokenOf(c.sessions, c.rotated, id, a.sessions[id].token) {
      assert TokenOf(b.sessions, b.rotated, id, a.sessions[id].token);
      assert TokenOf(c.sessions, c.rotated, id, b.sessions[id].token);
    }
  }

  lemma FollowsIsTransitive(a: Tables, b: Tables, c: Tables, locked: set<Subject>)
    requires Follows(a, b, locked) && Follows(b, c, locked)
    ensures Follows(a, c, locked)
  {
    AdvancesIsTransitive(a, b, c);
    assert ChallengesFramed(a.challenges, c.challenges, locked);
    assert DeliveriesFramed(a.challenges, a.deliveries, c.deliveries, locked);
    assert MaterialKept(a.challenges, a.deliveries, c.challenges, c.deliveries);
    assert EventsKept(a.challenges, a.events, c.events);
  }

  lemma FollowsWidens(a: Tables, b: Tables, locked: set<Subject>, more: set<Subject>)
    requires Follows(a, b, locked) && locked <= more
    ensures Follows(a, b, more)
  {
  }

  lemma FollowsIsReflexive(a: Tables, locked: set<Subject>)
    ensures Follows(a, a, locked)
  {
  }

  // ----- Changed rows -----

  /** MarkEmailVerified, RetireUnverifiedAccount and UpdatePasswordHash: one account row changes. */
  lemma AccountRowKeeps(db: Tables, s: Subject, a: Account)
    requires Valid(db) && s in db.accounts && AccountAdvances(db.accounts[s], a) && (Retired(a) ==> !Verified(a))
    requires Retired(a) ==> forall id :: id in db.sessions && db.sessions[id].subject == s ==> Revoked(db.sessions[id])
    requires Retired(a) ==> forall id :: id in db.challenges && db.challenges[id].subject == s ==>
      !Current(db.challenges[id]) && id !in db.deliveries
    ensures Valid(db.(accounts := db.accounts[s := a])) && Follows(db, db.(accounts := db.accounts[s := a]), {s})
  {
    FollowsIsReflexive(db, {s});
    var accounts := db.accounts[s := a];
    assert AccountsValid(accounts);
    assert SessionsValid(accounts, db.sessions);
    assert ChallengesValid(accounts, db.challenges);
    assert DeliveriesValid(accounts, db.challenges, db.deliveries);
    assert NoticesValid(accounts, db.notices);
  }

  /** The revocations and the proof stamp: session rows change and keep their tokens. */
  lemma SessionRowsKeep(db: Tables, sessions: Sessions)
    requires Valid(db) && sessions.Keys == db.sessions.Keys
    requires forall id :: id in sessions ==>
      && SessionAdvances(db.sessions[id], sessions[id])
      && sessions[id].token == db.sessions[id].token && sessions[id].idleExpiresAt == db.sessions[id].idleExpiresAt
    ensures Valid(db.(sessions := sessions)) && Follows(db, db.(sessions := sessions), {})
  {
    FollowsIsReflexive(db, {});
    assert SessionsValid(db.accounts, sessions);
    assert TokensValid(sessions, db.rotated);
    assert TokensAdvance(db.sessions, db.rotated, sessions, db.rotated);
  }

  /** Replacement, revocation, consumption and wrong guesses: challenge rows of one account change. */
  lemma ChallengeRowsKeep(db: Tables, challenges: Challenges, s: Subject)
    requires Valid(db) && challenges.Keys == db.challenges.Keys
    requires forall id :: id in challenges ==>
      && ChallengeAdvances(db.challenges[id], challenges[id])
      && challenges[id].wrongGuesses <= 5 && (challenges[id].replacedAt.None? || challenges[id].consumedAt.None?)
    requires forall id :: id in challenges && db.challenges[id].subject != s ==> challenges[id] == db.challenges[id]
    ensures Valid(db.(challenges := challenges)) && Follows(db, db.(challenges := challenges), {s})
  {
    FollowsIsReflexive(db, {s});
    assert ChallengesValid(db.accounts, challenges);
    assert OneCurrent(challenges);
    assert DeliveriesValid(db.accounts, challenges, db.deliveries);
  }

  lemma DropDeliveriesKeeps(db: Tables, kept: Deliveries)
    requires Valid(db) && (forall id :: id in kept ==> id in db.deliveries && kept[id] == db.deliveries[id])
    ensures Valid(db.(deliveries := kept)) && Advances(db, db.(deliveries := kept))
    ensures EventsKept(db.challenges, db.events, db.events)
  {
  }

  // The relay's statements change one event row.
  lemma EventRowKeeps(db: Tables, e: EventId, ev: Event)
    requires Valid(db) && e in db.events && EventAdvances(db.events[e], ev)
    ensures Valid(db.(events := db.events[e := ev])) && Advances(db, db.(events := db.events[e := ev]))
    ensures Frames(db, db.(events := db.events[e := ev]), {})
  {
    var events := db.events[e := ev];
    forall d | d in db.deliveries ensures HasEvent(events, d) {
      var f :| f in db.events && db.events[f].challenge == d;
      assert f in events && events[f].challenge == d;
    }
  }

  // ----- New rows -----

  lemma InsertAccountKeeps(db: Tables, s: Subject, email: Email, hash: Option<PasswordHash>, verifiedAt: Option<Time>)
    requires Valid(db) && s !in db.accounts && (forall t :: !IsActive(db.accounts, t, email))
    ensures Valid(InsertAccount(db, s, email, hash, verifiedAt))
    ensures Follows(db, InsertAccount(db, s, email, hash, verifiedAt), {})
  {
    FollowsIsReflexive(db, {});
    var db' := InsertAccount(db, s, email, hash, verifiedAt);
    forall t | t in db.accounts && !Retired(db.accounts[t]) ensures db.accounts[t].email != email {
      assert !IsActive(db.accounts, t, email);
    }
    assert AccountsValid(db'.accounts);
    assert SessionsValid(db'.accounts, db.sessions);
    assert ChallengesValid(db'.accounts, db.challenges);
    assert DeliveriesValid(db'.accounts, db.challenges, db.deliveries);
  }

  lemma InsertSessionKeeps(db: Tables, id: SessionId, s: Subject, token: TokenHash, now: Time)
    requires Valid(db) && s in db.accounts && !Retired(db.accounts[s]) && id !in db.sessions && TokenUnused(db, token)
    ensures Valid(InsertSession(db, id, s, token, now)) && Follows(db, InsertSession(db, id, s, token, now), {})
  {
    FollowsIsReflexive(db, {});
    var db' := InsertSession(db, id, s, token, now);
    assert SessionsValid(db.accounts, db'.sessions);
    assert TokensValid(db'.sessions, db.rotated);
    assert TokensAdvance(db.sessions, db.rotated, db'.sessions, db.rotated);
  }

  /** The two statements of a rotation together: alone, the first leaves the current token in the rotated set. */
  lemma RotationKeeps(db: Tables, next: TokenHash, id: SessionId, spent: TokenHash, now: Time)
    requires Valid(db) && CanRotate(db, id, spent, now) && TokenUnused(db, next)
    requires db.sessions[id].idleExpiresAt <= now + IDLE_LIFETIME
    ensures var db' := RotateCurrentRefreshToken(RecordRotatedRefreshToken(db, spent, id), next, id, spent, now);
      Valid(db') && Follows(db, db', {})
  {
    FollowsIsReflexive(db, {});
    var db' := RotateCurrentRefreshToken(RecordRotatedRefreshToken(db, spent, id), next, id, spent, now);
    assert SessionsValid(db.accounts, db'.sessions);
    assert TokensValid(db'.sessions, db'.rotated);
    assert TokensAdvance(db.sessions, db.rotated, db'.sessions, db'.rotated);
  }

  lemma CreateChallengeKeeps(db: Tables, id: ChallengeId, s: Subject, p: Purpose, email: Email, code: string, now: Time)
    requires Valid(db) && id !in db.challenges && IsActive(db.accounts, s, email) && ValidVerificationCode(code)
    requires NeedsVerifiedEmail(p) ==> Verified(db.accounts[s])
    requires forall other :: !IsCurrentChallenge(db.challenges, other, s, p)
    ensures Valid(CreateChallenge(db, id, s, p, email, code, now))
    ensures Follows(db, CreateChallenge(db, id, s, p, email, code, now), {})
  {
    FollowsIsReflexive(db, {});
    var db' := CreateChallenge(db, id, s, p, email, code, now);
    assert ChallengesValid(db.accounts, db'.challenges);
    forall i | i in db.challenges && Current(db.challenges[i]) && db.challenges[i].subject == s
      ensures db.challenges[i].purpose != p
    {
      assert !IsCurrentChallenge(db.challenges, i, s, p);
    }
    assert OneCurrent(db'.challenges);
    assert DeliveriesValid(db.accounts, db'.challenges, db.deliveries);
  }

  /** A challenge's material and its outbox event are stored together, right after the challenge. */
  lemma QueueDeliveryKeeps(db: Tables, id: ChallengeId, e: EventId, now: Time)
    requires Valid(db) && id in db.challenges && id !in db.deliveries
    requires !Retired(db.accounts[db.challenges[id].subject])
    requires e !in db.events && !HasEvent(db.events, id)
    ensures Valid(CreateOutboxEvent(StoreChallengeDelivery(db, id, Seal(id, db.challenges[id])), e, id, now))
  {
    var db' := CreateOutboxEvent(StoreChallengeDelivery(db, id, Seal(id, db.challenges[id])), e, id, now);
    assert e in db'.events && db'.events[e].challenge == id;
    forall d | d in db'.deliveries ensures HasEvent(db'.events, d) {
      if d != id {
        var f :| f in db.events && db.events[f].challenge == d;
        assert f in db'.events && db'.events[f].challenge == d;
      }
    }
    forall f | f in db.events ensures db.events[f].challenge != id {
    }
    assert EventsValid(db'.challenges, db'.events);
  }
}
