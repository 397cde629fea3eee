/**
 What the requests of the Identity service mean on the rows, column by column and with
 the periods of its documentation: a vocabulary without the statements, and the lemmas
 that say that the statements have these effects on every table and on nothing else.
 */
module Effects {
  import opened Options
  import opened Clock
  import opened Schema
  import opened Statements
  import opened Consistency
  import opened ChallengeCheck
  import opened Transactions

  // ----- Conditions -----

  /** The session neither ended nor ran out. */
  predicate Alive(s: Session, t: Time) {
    s.revokedAt.None? && t < s.idleExpiresAt && t < s.absoluteExpiresAt
  }

  predicate SignedIn(db: Tables, s: Subject, id: SessionId, t: Time) {
    && s in db.accounts && db.accounts[s].retiredAt.None?
    && id in db.sessions && db.sessions[id].subject == s && Alive(db.sessions[id], t)
  }

  predicate OwnsEmail(db: Tables, s: Subject, email: Email) {
    s in db.accounts && db.accounts[s].email == email && db.accounts[s].retiredAt.None?
  }

  predicate SixDigits(code: string) {
    |code| == 6 && forall i :: 0 <= i < |code| ==> code[i] in "0123456789"
  }

  // The account's challenge of the purpose was neither replaced nor consumed, has a guess left and is open by both
  // clocks.
  predicate OpenCode(db: Tables, s: Subject, p: Purpose, id: ChallengeId, appNow: Time, guessAt: Time) {
    && id in db.challenges && db.challenges[id].subject == s && db.challenges[id].purpose == p
    && db.challenges[id].replacedAt.None? && db.challenges[id].consumedAt.None? && db.challenges[id].wrongGuesses < 5
    && appNow < db.challenges[id].expiresAt && guessAt < db.challenges[id].expiresAt
  }

  /** The submitted code is the one that was sent for an open challenge of the account. */
  ghost predicate IsRight(
    db: Tables, s: Subject, p: Purpose, code: string, appNow: Time, guessAt: Time, id: ChallengeId)
  {
    OpenCode(db, s, p, id, appNow, guessAt) && code == db.challenges[id].verifier.code
  }

  /** The submitted code is another six-digit code than the one that was sent. */
  ghost predicate IsWrong(
    db: Tables, s: Subject, p: Purpose, code: string, appNow: Time, guessAt: Time, id: ChallengeId)
  {
    OpenCode(db, s, p, id, appNow, guessAt) && SixDigits(code) && code != db.challenges[id].verifier.code
  }

  ghost predicate RightCode(db: Tables, s: Subject, p: Purpose, code: string, appNow: Time, guessAt: Time) {
    exists id :: IsRight(db, s, p, code, appNow, guessAt, id)
  }

  /**
   The code of the challenge may be sent: its account keeps the address, is not retired, and is
   verified for a reset or a re-authentication and unverified otherwise; and the challenge is open.
   */
  predicate Sendable(a: Account, c: Challenge, t: Time) {
    && a.retiredAt.None? && c.email == a.email
    && a.verifiedAt.Some? == (c.purpose == PurposePasswordReset || c.purpose == PurposeReauthenticate)
    && c.replacedAt.None? && c.consumedAt.None? && c.wrongGuesses < 5 && t < c.expiresAt
  }

  // The account's challenges whose issue falls into the hour that starts at `from`.
  function InHour(challenges: Challenges, s: Subject, from: Time): set<ChallengeId> {
    set id | id in challenges && challenges[id].subject == s && from <= challenges[id].issuedAt < from + 60 * MINUTE
  }

  /**
   One more challenge of the account at `t` leaves at most five in every half-open hour,
   and none within 60 seconds of another.
   */
  ghost predicate RateAllows(challenges: Challenges, s: Subject, t: Time) {
    && (forall from :: |InHour(challenges, s, from)| + (if from <= t < from + 60 * MINUTE then 1 else 0) <= 5)
    && forall id :: id in challenges && challenges[id].subject == s ==>
         challenges[id].issuedAt + 60 * SECOND <= t || t + 60 * SECOND <= challenges[id].issuedAt
  }

  // ----- Changes -----

  /** The challenge is consumed; nothing else changes. */
  function Spent(db: Tables, id: ChallengeId, at: Time): Tables
    requires id in db.challenges
  {
    db.(challenges := db.challenges[id := db.challenges[id].(consumedAt := Some(at))])
  }

  /**
   A wrong code costs one guess of its open challenge; any other submission that is not the right code changes
   nothing.
   */
  ghost predicate CountsGuess(
    before: Tables, after: Tables, s: Subject, p: Purpose, code: string, appNow: Time, guessAt: Time)
  {
    && (forall id :: IsWrong(before, s, p, code, appNow, guessAt, id) ==>
          var c := before.challenges[id];
          after == before.(challenges := before.challenges[id := c.(wrongGuesses := c.wrongGuesses + 1)]))
    && ((forall id :: !IsWrong(before, s, p, code, appNow, guessAt, id)) ==> after == before)
  }

  /** A new session: proven now, 30 days idle, 90 days in all. */
  function FirstRow(s: Subject, n: NewSession): Session {
    Session(s, n.token, n.createAt, Some(n.createAt), n.createAt + 30 * DAY, n.createAt + 90 * DAY, None)
  }

  /** The live sessions of the account end; no other session changes. */
  ghost predicate SignsOut(before: Sessions, after: Sessions, s: Subject, at: Time) {
    && after.Keys == before.Keys
    && forall id :: id in before ==>
         after[id] == if before[id].subject == s && before[id].revokedAt.None?
                      then before[id].(revokedAt := Some(at)) else before[id]
  }

  /** One session ends; no other session changes. */
  ghost predicate EndsOne(before: Sessions, after: Sessions, id: SessionId, at: Time) {
    && after.Keys == before.Keys && id in before && after[id] == before[id].(revokedAt := Some(at))
    && forall k :: k in before && k != id ==> after[k] == before[k]
  }

  predicate OfPurpose(p: Option<Purpose>, q: Purpose) { p.None? || p.value == q }

  // The account's challenges of the purpose, or of any purpose.
  predicate IsOpenRow(c: Challenge, s: Subject, p: Option<Purpose>) {
    c.subject == s && OfPurpose(p, c.purpose) && c.replacedAt.None? && c.consumedAt.None?
  }

  /** The current challenges of the account and purpose are replaced; no other challenge changes. */
  ghost predicate Supersedes(before: Challenges, after: Challenges, s: Subject, p: Option<Purpose>, at: Time) {
    && after.Keys == before.Keys
    && forall id :: id in before ==>
         after[id] == if IsOpenRow(before[id], s, p) then before[id].(replacedAt := Some(at)) else before[id]
  }

  ghost predicate HasReplaced(challenges: Challenges, s: Subject, p: Purpose, id: ChallengeId) {
    id in challenges && challenges[id].subject == s && challenges[id].purpose == p && challenges[id].replacedAt.Some?
  }

  /** A new challenge: no guesses, ten minutes, and the verifier of its code. */
  function CodeRow(s: Subject, p: Purpose, email: Email, n: NewCode): Challenge {
    Challenge(s, p, email, Verifier(s, email, p, n.code), 0, n.createAt, n.createAt + 10 * MINUTE, None, None)
  }

  /** The code with its material and its event, which is due at once. */
  ghost predicate AddsCode(before: Tables, after: Tables, s: Subject, p: Purpose, email: Email, n: NewCode) {
    && after == before.(
         challenges := before.challenges[n.id := CodeRow(s, p, email, n)],
         deliveries := before.deliveries[n.id := Sealed(n.id, p, s, email, n.code)],
         events := before.events[n.event := Event(n.id, n.queueAt, n.queueAt, 0, None, None)])
  }

  /**
   Issuing replaces the current codes of the purpose, drops the material of replaced reset and re-authentication
   codes, and adds the new code.
   */
  ghost predicate Issues(before: Tables, after: Tables, s: Subject, p: Purpose, email: Email, n: NewCode) {
    exists challenges, deliveries ::
      && Supersedes(before.challenges, challenges, s, Some(p), n.replaceAt)
      && (forall id :: id in deliveries <==>
            id in before.deliveries &&
            !((p == PurposePasswordReset || p == PurposeReauthenticate) && HasReplaced(challenges, s, p, id)))
      && (forall id :: id in deliveries ==> deliveries[id] == before.deliveries[id])
      && AddsCode(before.(challenges := challenges, deliveries := deliveries), after, s, p, email, n)
  }

  // ----- Statements -----

  lemma SixDigitsAreValid(code: string)
    ensures SixDigits(code) <==> ValidVerificationCode(code)
  {
    assert forall c: char :: c in "0123456789" <==> '0' <= c <= '9';
  }

  lemma CurrentIsSendable(a: Account, c: Challenge, t: Time)
    ensures IsCurrentDelivery(a, c, t) <==> Sendable(a, c, t)
    ensures IsTerminal(a, c, t) <==> !Sendable(a, c, t)
  {
  }

  lemma LiveIsAlive(s: Session, t: Time)
    ensures Live(s, t) <==> Alive(s, t)
  {
  }

  lemma ActiveIsSignedIn(db: Tables, s: Subject, id: SessionId, t: Time)
    ensures SessionActive(db, s, id, t) <==> SignedIn(db, s, id, t)
  {
  }

  lemma ActiveOwnsEmail(db: Tables, s: Subject, email: Email)
    ensures IsActive(db.accounts, s, email) <==> OwnsEmail(db, s, email)
  {
  }

  lemma OpenSessionAddsFirstRow(db: Tables, s: Subject, n: NewSession)
    ensures OpenSession(db, s, n) == db.(sessions := db.sessions[n.id := FirstRow(s, n)])
  {
  }

  lemma RevocationSignsOut(db: Tables, s: Subject, at: Time)
    ensures SignsOut(db.sessions, RevokeAccountSessions(db, s, at).sessions, s, at)
    ensures RevokeAccountSessions(db, s, at) == db.(sessions := RevokeAccountSessions(db, s, at).sessions)
  {
  }

  lemma RevocationEndsOne(db: Tables, id: SessionId, at: Time)
    requires id in db.sessions && db.sessions[id].revokedAt.None?
    ensures EndsOne(db.sessions, RevokeRefreshSession(db, id, at).sessions, id, at)
    ensures RevokeRefreshSession(db, id, at) == db.(sessions := RevokeRefreshSession(db, id, at).sessions)
  {
  }

  lemma ReplacementSupersedes(db: Tables, s: Subject, p: Purpose, at: Time)
    ensures Supersedes(db.challenges, ReplaceCurrentChallenge(db, s, p, at).challenges, s, Some(p), at)
    ensures ReplaceCurrentChallenge(db, s, p, at) == db.(challenges := ReplaceCurrentChallenge(db, s, p, at).challenges)
  {
  }

  lemma RevocationSupersedes(db: Tables, s: Subject, at: Time)
    ensures Supersedes(db.challenges, RevokeAccountChallenges(db, s, at).challenges, s, None, at)
    ensures RevokeAccountChallenges(db, s, at) == db.(challenges := RevokeAccountChallenges(db, s, at).challenges)
  {
  }

  lemma DeletionDropsReplaced(db: Tables, s: Subject, p: Purpose)
    ensures var after := DeleteReplacedChallengeDeliveries(db, s, p);
      && after == db.(deliveries := after.deliveries)
      && (forall id :: id in after.deliveries <==> id in db.deliveries && !HasReplaced(db.challenges, s, p, id))
      && (forall id :: id in after.deliveries ==> after.deliveries[id] == db.deliveries[id])
  {
  }

  lemma QueueAddsCode(db: Tables, s: Subject, p: Purpose, email: Email, n: NewCode)
    ensures AddsCode(db, QueueCode(db, s, p, email, n), s, p, email, n)
  {
  }

  lemma ReplaceIsClean(db: Tables, s: Subject, p: Purpose, at: Time)
    ensures var after := ReplaceCode(db, s, p, at);
      && after == db.(challenges := after.challenges, deliveries := after.deliveries)
      && Supersedes(db.challenges, after.challenges, s, Some(p), at)
      && (forall id :: id in after.deliveries <==>
            id in db.deliveries &&
            !((p == PurposePasswordReset || p == PurposeReauthenticate) && HasReplaced(after.challenges, s, p, id)))
      && (forall id :: id in after.deliveries ==> after.deliveries[id] == db.deliveries[id])
  {
    ReplacementSupersedes(db, s, p, at);
    DeletionDropsReplaced(ReplaceCurrentChallenge(db, s, p, at), s, p);
    hide ReplaceCurrentChallenge, DeleteReplacedChallengeDeliveries, Supersedes, HasReplaced;
  }

  lemma IssueIssues(db: Tables, s: Subject, p: Purpose, n: NewCode)
    requires s in db.accounts
    ensures Issues(db, IssueCode(db, s, p, n), s, p, db.accounts[s].email, n)
  {
    var replaced := ReplaceCode(db, s, p, n.replaceAt);
    ReplaceIsClean(db, s, p, n.replaceAt);
    QueueAddsCode(replaced, s, p, db.accounts[s].email, n);
    hide ReplaceCode, QueueCode, Supersedes, HasReplaced, AddsCode;
    assert replaced == db.(challenges := replaced.challenges, deliveries := replaced.deliveries);
  }
}
