/**
 One function per SQL statement of the account, session, challenge and delivery
 queries. A WHERE clause is a branch: when it selects no row, the tables stay as
 they are. The parameter `now` is statement_timestamp().
 */
module Statements {
  import opened Options
  import opened Clock
  import opened Schema

  // ----- identity_accounts -----

  function InsertAccount(
    db: Tables, s: Subject, email: Email, hash: Option<PasswordHash>, verifiedAt: Option<Time>): Tables
  {
    db.(accounts := db.accounts[s := Account(email, hash, verifiedAt, None)])
  }

  predicate CanVerify(db: Tables, s: Subject) {
    s in db.accounts && !Verified(db.accounts[s]) && !Retired(db.accounts[s])
  }

  function MarkEmailVerified(db: Tables, s: Subject, now: Time): Tables {
    if CanVerify(db, s) then db.(accounts := db.accounts[s := db.accounts[s].(verifiedAt := Some(now))]) else db
  }

  function RetireUnverifiedAccount(db: Tables, s: Subject, now: Time): Tables {
    if CanVerify(db, s) then db.(accounts := db.accounts[s := db.accounts[s].(retiredAt := Some(now))]) else db
  }

  predicate CanChangePassword(db: Tables, s: Subject) {
    s in db.accounts && Verified(db.accounts[s]) && !Retired(db.accounts[s])
  }

  function UpdatePasswordHash(db: Tables, s: Subject, hash: PasswordHash): Tables {
    if CanChangePassword(db, s) then
      db.(accounts := db.accounts[s := db.accounts[s].(passwordHash := Some(hash))])
    else db
  }

  // ----- identity_sessions and identity_rotated_refresh_tokens -----

  const IDLE_LIFETIME := 30 * DAY
  const ABSOLUTE_LIFETIME := 90 * DAY

  function InsertSession(db: Tables, id: SessionId, s: Subject, token: TokenHash, now: Time): Tables {
    db.(sessions := db.sessions[id :=
      Session(s, token, now, Some(now), now + IDLE_LIFETIME, now + ABSOLUTE_LIFETIME, None)])
  }

  function RevokeRow(s: Session, now: Time): Session {
    if Revoked(s) then s else s.(revokedAt := Some(now))
  }

  function RevokeAccountSessions(db: Tables, s: Subject, now: Time): Tables {
    db.(sessions := map id | id in db.sessions ::
      if db.sessions[id].subject == s then RevokeRow(db.sessions[id], now) else db.sessions[id])
  }

  function RevokeRefreshSession(db: Tables, id: SessionId, now: Time): Tables {
    if id in db.sessions then db.(sessions := db.sessions[id := RevokeRow(db.sessions[id], now)]) else db
  }

  function RevokeCurrentSession(db: Tables, s: Subject, id: SessionId, now: Time): Tables {
    if SessionActive(db, s, id, now) then RevokeRefreshSession(db, id, now) else db
  }

  predicate CanRotate(db: Tables, id: SessionId, spent: TokenHash, now: Time) {
    id in db.sessions && db.sessions[id].token == spent && Live(db.sessions[id], now)
  }

  function RecordRotatedRefreshToken(db: Tables, spent: TokenHash, id: SessionId): Tables {
    db.(rotated := db.rotated[spent := id])
  }

  function RotateCurrentRefreshToken(db: Tables, next: TokenHash, id: SessionId, spent: TokenHash, now: Time): Tables {
    if CanRotate(db, id, spent, now) then
      db.(sessions := db.sessions[id := db.sessions[id].(
        token := next, idleExpiresAt := Min(now + IDLE_LIFETIME, db.sessions[id].absoluteExpiresAt))])
    else db
  }

  // The deferred trigger writes the proof time while COMMIT runs.
  function StampProof(db: Tables, id: SessionId, now: Time): Tables {
    if id in db.sessions then db.(sessions := db.sessions[id := db.sessions[id].(provenAt := Some(now))]) else db
  }

  // ----- identity_challenges -----

  const CODE_LIFETIME := 10 * MINUTE

  function Replace(c: Challenge, now: Time): Challenge {
    if Current(c) then c.(replacedAt := Some(now)) else c
  }

  function ReplaceCurrentChallenge(db: Tables, s: Subject, p: Purpose, now: Time): Tables {
    db.(challenges := map id | id in db.challenges ::
      if db.challenges[id].subject == s && db.challenges[id].purpose == p
      then Replace(db.challenges[id], now) else db.challenges[id])
  }

  function RevokeAccountChallenges(db: Tables, s: Subject, now: Time): Tables {
    db.(challenges := map id | id in db.challenges ::
      if db.challenges[id].subject == s then Replace(db.challenges[id], now) else db.challenges[id])
  }

  function CreateChallenge(
    db: Tables, id: ChallengeId, s: Subject, p: Purpose, email: Email, code: string, now: Time): Tables
  {
    db.(challenges := db.challenges[id :=
      Challenge(s, p, email, Verifier(s, email, p, code), 0, now, now + CODE_LIFETIME, None, None)])
  }

  predicate Open(db: Tables, id: ChallengeId, now: Time) {
    && id in db.challenges && Current(db.challenges[id])
    && db.challenges[id].expiresAt > now && db.challenges[id].wrongGuesses < 5
  }

  function ConsumeCurrentChallenge(db: Tables, id: ChallengeId, now: Time): Tables {
    if Open(db, id, now) then
      db.(challenges := db.challenges[id := db.challenges[id].(consumedAt := Some(now))])
    else db
  }

  function IncrementChallengeWrongGuess(db: Tables, id: ChallengeId, now: Time): Tables {
    if Open(db, id, now) then
      db.(challenges := db.challenges[id := db.challenges[id].(wrongGuesses := db.challenges[id].wrongGuesses + 1)])
    else db
  }

  function IssuedAfter(db: Tables, s: Subject, cutoff: Time): set<ChallengeId> {
    set id | id in db.challenges && db.challenges[id].subject == s && db.challenges[id].issuedAt > cutoff
  }

  predicate CanIssueCode(db: Tables, s: Subject, now: Time) {
    && |IssuedAfter(db, s, now - HOUR)| < 5
    && forall id :: id in IssuedAfter(db, s, now - HOUR) ==> db.challenges[id].issuedAt <= now - MINUTE
  }

  predicate ReauthenticationIssuedAfter(db: Tables, s: Subject, cutoff: Time) {
    exists id :: id in db.challenges && db.challenges[id].subject == s &&
      db.challenges[id].purpose == PurposeReauthenticate && db.challenges[id].issuedAt > cutoff
  }

  // ----- identity_challenge_deliveries -----

  function StoreChallengeDelivery(db: Tables, id: ChallengeId, m: Material): Tables {
    db.(deliveries := db.deliveries[id := m])
  }

  function DeleteChallengeDelivery(db: Tables, id: ChallengeId): Tables {
    db.(deliveries := db.deliveries - {id})
  }

  function DeleteReplacedChallengeDeliveries(db: Tables, s: Subject, p: Purpose): Tables {
    db.(deliveries := map id | id in db.deliveries &&
      !(id in db.challenges && db.challenges[id].subject == s && db.challenges[id].purpose == p &&
        db.challenges[id].replacedAt.Some?) :: db.deliveries[id])
  }

  function DeleteAccountChallengeDeliveries(db: Tables, s: Subject): Tables {
    db.(deliveries := map id | id in db.deliveries &&
      !(id in db.challenges && db.challenges[id].subject == s) :: db.deliveries[id])
  }

  predicate Purgeable(db: Tables, id: ChallengeId, now: Time) {
    && id in db.deliveries && id in db.challenges && db.challenges[id].subject in db.accounts
    && IsTerminal(db.accounts[db.challenges[id].subject], db.challenges[id], now)
  }

  /** SKIP LOCKED leaves the rows of the subjects in `locked` alone. */
  function PurgeTerminalDeliveries(db: Tables, locked: set<Subject>, now: Time): Tables {
    db.(deliveries := map id | id in db.deliveries &&
      !(Purgeable(db, id, now) && db.challenges[id].subject !in locked) :: db.deliveries[id])
  }

  // ----- identity_outbox_events -----

  const LEASE := 30 * SECOND

  function CreateOutboxEvent(db: Tables, e: EventId, id: ChallengeId, now: Time): Tables {
    db.(events := db.events[e := Event(id, now, now, 0, None, None)])
  }

  predicate Due(ev: Event, now: Time) {
    && ev.publishedAt.None? && ev.nextAttemptAt <= now
    && (ev.claim.None? || ev.claim.value.until <= now)
  }

  // ORDER BY next_attempt_at, created_at
  predicate NoLater(e: Event, f: Event) {
    e.nextAttemptAt < f.nextAttemptAt || (e.nextAttemptAt == f.nextAttemptAt && e.createdAt <= f.createdAt)
  }

  /** The event that the claim statement picks. */
  predicate IsNext(events: map<EventId, Event>, e: EventId, now: Time) {
    && e in events && Due(events[e], now)
    && forall f :: f in events && Due(events[f], now) ==> NoLater(events[e], events[f])
  }

  function ClaimOutboxEvent(db: Tables, e: EventId, owner: Owner, now: Time): Tables {
    if e in db.events && Due(db.events[e], now) then
      db.(events := db.events[e := db.events[e].(claim := Some(Claim(owner, now + LEASE)))])
    else db
  }

  predicate HoldsClaim(db: Tables, e: EventId, owner: Owner, now: Time) {
    && e in db.events && db.events[e].publishedAt.None? && db.events[e].claim.Some?
    && db.events[e].claim.value.owner == owner && db.events[e].claim.value.until > now
  }

  function MarkOutboxPublished(db: Tables, e: EventId, owner: Owner, now: Time): Tables {
    if HoldsClaim(db, e, owner, now) then
      db.(events := db.events[e := db.events[e].(publishedAt := Some(now), claim := None)])
    else db
  }

  function ReleaseOutboxClaim(db: Tables, e: EventId, owner: Owner, nextAttemptAt: Time, now: Time): Tables {
    if HoldsClaim(db, e, owner, now) then
      db.(events := db.events[e := db.events[e].(
        attemptCount := db.events[e].attemptCount + 1, nextAttemptAt := nextAttemptAt, claim := None)])
    else db
  }

  // ----- identity_password_change_notices and identity_provider_links -----

  function QueuePasswordChangeNotice(db: Tables, n: NoticeId, s: Subject, now: Time): Tables {
    if CanChangePassword(db, s)
      then db.(notices := db.notices[n := Notice(s, db.accounts[s].email, now, now, 0)]) else db
  }

  function CreateProviderLink(db: Tables, who: ProviderIdentity, s: Subject): Tables {
    db.(links := db.links[who := s])
  }
}
