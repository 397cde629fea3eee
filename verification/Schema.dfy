/**
 The tables of the Identity database, one map per table, and the predicates that
 the SQL texts and the Go code evaluate on their rows.

 Identifiers, password hashes and refresh-token hashes are opaque: the service
 only compares them for equality, so they are plain integers here. A keyed
 one-way verifier and a sealed delivery are free constructors: equal exactly when
 the inputs are equal.
 */
module Schema {
  import opened Options
  import opened Clock

  type Subject = int
  type SessionId = int
  type ChallengeId = int
  type EventId = int
  type NoticeId = int
  type TokenHash = int
  type PasswordHash = int
  type Owner = int

  datatype Email = Email(local: string, domain: string)

  datatype Purpose =
    | PurposeVerifyEmail
    | PurposeClaimAccount
    | PurposePasswordReset
    | PurposeReauthenticate

  datatype Account = Account(
    email: Email,
    passwordHash: Option<PasswordHash>,
    verifiedAt: Option<Time>,
    retiredAt: Option<Time>)

  datatype Session = Session(
    subject: Subject,
    token: TokenHash,
    createdAt: Time,
    provenAt: Option<Time>,
    idleExpiresAt: Time,
    absoluteExpiresAt: Time,
    revokedAt: Option<Time>)

  // HMAC-SHA-256 over the four length-prefixed fields.
  datatype Verifier = Verifier(subject: Subject, email: Email, purpose: Purpose, code: string)

  datatype Challenge = Challenge(
    subject: Subject,
    purpose: Purpose,
    email: Email,
    verifier: Verifier,
    wrongGuesses: int,
    issuedAt: Time,
    expiresAt: Time,
    replacedAt: Option<Time>,
    consumedAt: Option<Time>)

  // AES-GCM: the address and code, bound to the challenge, purpose and subject.
  datatype Material = Sealed(challenge: ChallengeId, purpose: Purpose, subject: Subject, email: Email, code: string)

  // claim_owner and claimed_until are both null or both set.
  datatype Claim = Claim(owner: Owner, until: Time)

  datatype Event = Event(
    challenge: ChallengeId,
    createdAt: Time,
    nextAttemptAt: Time,
    attemptCount: nat,
    claim: Option<Claim>,
    publishedAt: Option<Time>)

  datatype Notice = Notice(subject: Subject, email: Email, createdAt: Time, nextAttemptAt: Time, attemptCount: nat)

  datatype ProviderIdentity = ProviderIdentity(provider: int, subject: int)

  datatype Tables = Tables(
    accounts: map<Subject, Account>,
    sessions: map<SessionId, Session>,
    rotated: map<TokenHash, SessionId>,
    challenges: map<ChallengeId, Challenge>,
    deliveries: map<ChallengeId, Material>,
    events: map<EventId, Event>,
    notices: map<NoticeId, Notice>,
    links: map<ProviderIdentity, Subject>)

  const EMPTY := Tables(map[], map[], map[], map[], map[], map[], map[], map[])

  // ----- Rows -----

  predicate Retired(a: Account) { a.retiredAt.Some? }

  predicate Verified(a: Account) { a.verifiedAt.Some? }

  // Neither replaced nor consumed: the partial index identity_challenges_one_current_purpose covers the row.
  predicate Current(c: Challenge) { c.replacedAt.None? && c.consumedAt.None? }

  predicate Revoked(s: Session) { s.revokedAt.Some? }

  predicate Live(s: Session, now: Time) {
    !Revoked(s) && s.idleExpiresAt > now && s.absoluteExpiresAt > now
  }

  predicate NeedsVerifiedEmail(p: Purpose) {
    p == PurposePasswordReset || p == PurposeReauthenticate
  }

  /** The Go test that the worker makes on the two locked rows. */
  predicate IsCurrentDelivery(a: Account, c: Challenge, now: Time) {
    var emailEligible := if NeedsVerifiedEmail(c.purpose) then Verified(a) else !Verified(a);
    !Retired(a) && emailEligible && c.replacedAt.None? && c.consumedAt.None? &&
    c.wrongGuesses < 5 && !(c.expiresAt <= now) && c.email.local == a.email.local && c.email.domain == a.email.domain
  }

  /** The WHERE clause of the purge statement. */
  predicate IsTerminal(a: Account, c: Challenge, now: Time) {
    || c.expiresAt <= now
    || c.replacedAt.Some?
    || c.consumedAt.Some?
    || c.wrongGuesses >= 5
    || c.email.local != a.email.local
    || c.email.domain != a.email.domain
    || Retired(a)
    || (Verified(a) && !NeedsVerifiedEmail(c.purpose))
    || (!Verified(a) && NeedsVerifiedEmail(c.purpose))
  }

  // ----- Lookups -----

  predicate IsActive(accounts: map<Subject, Account>, s: Subject, email: Email) {
    s in accounts && accounts[s].email == email && !Retired(accounts[s])
  }

  /** SELECT ... WHERE email_local = $1 AND email_domain = $2 AND retired_at IS NULL */
  ghost function FindActive(accounts: map<Subject, Account>, email: Email): (found: Option<Subject>)
    ensures found.Some? ==> IsActive(accounts, found.value, email)
    ensures found.None? ==> forall s :: !IsActive(accounts, s, email)
  {
    if exists s :: IsActive(accounts, s, email) then
      var s :| IsActive(accounts, s, email);
      Some(s)
    else None
  }

  predicate IsCurrentChallenge(challenges: map<ChallengeId, Challenge>, id: ChallengeId, s: Subject, p: Purpose) {
    id in challenges && challenges[id].subject == s && challenges[id].purpose == p && Current(challenges[id])
  }

  /** SELECT ... WHERE account_subject = $1 AND purpose = $2 AND replaced_at IS NULL AND consumed_at IS NULL */
  ghost function FindCurrent(
    challenges: map<ChallengeId, Challenge>, s: Subject, p: Purpose): (found: Option<ChallengeId>)
    ensures found.Some? ==> IsCurrentChallenge(challenges, found.value, s, p)
    ensures found.None? ==> forall id :: !IsCurrentChallenge(challenges, id, s, p)
  {
    if exists id :: IsCurrentChallenge(challenges, id, s, p) then
      var id :| IsCurrentChallenge(challenges, id, s, p);
      Some(id)
    else None
  }

  /** The join of GetActiveAccountForSessionForUpdate and GetActiveSessionState. */
  predicate SessionActive(db: Tables, s: Subject, id: SessionId, now: Time) {
    && s in db.accounts && !Retired(db.accounts[s])
    && id in db.sessions && db.sessions[id].subject == s && Live(db.sessions[id], now)
  }

  // The token is the session's current one, or one that it rotated away.
  predicate TokenOf(
    sessions: map<SessionId, Session>, rotated: map<TokenHash, SessionId>, id: SessionId, token: TokenHash)
  {
    id in sessions && (sessions[id].token == token || (token in rotated && rotated[token] == id))
  }

  /** SELECT id ... WHERE refresh_token_hash = $1 UNION ALL SELECT session_id ... WHERE token_hash = $1 LIMIT 1 */
  ghost function FindRefreshSession(db: Tables, token: TokenHash): (found: Option<SessionId>)
    ensures found.Some? && token !in db.rotated ==>
      found.value in db.sessions && db.sessions[found.value].token == token
    ensures found.None? ==> token !in db.rotated && forall id :: id in db.sessions ==> db.sessions[id].token != token
  {
    if exists id :: id in db.sessions && db.sessions[id].token == token then
      var id :| id in db.sessions && db.sessions[id].token == token;
      Some(id)
    else if token in db.rotated then Some(db.rotated[token])
    else None
  }

  predicate TokenUnused(db: Tables, token: TokenHash) {
    token !in db.rotated && forall id :: id in db.sessions ==> db.sessions[id].token != token
  }
}
