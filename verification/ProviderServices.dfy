/**
 Provider login and provider re-authentication as one database transaction over the
 attempts and the account tables, and runs of both machines side by side.
 */
module ProviderServices {
  import opened Clock
  import opened Schema
  import opened Consistency
  import opened Transactions
  import opened System
  import opened SystemInvariant
  import opened Runs
  import opened Database
  import AccountServices
  import Outcomes
  import Attempts = ProviderAttempts
  import AttemptHistory

  // ----- One transaction -----

  // A claim that matches no row changes none.
  lemma NothingClaimed(
    attempts: Attempts.Attempts, token: Attempts.Secret, handoff: Attempts.Secret, s: Subject, session: SessionId,
    now: Time)
    ensures (forall id :: id in attempts ==> !Attempts.CanClaimLogin(attempts[id], token, handoff, now)) ==>
      Attempts.ClaimLogin(attempts, token, handoff, now) == attempts
    ensures (forall id :: id in attempts ==>
      !Attempts.CanClaimReauthentication(attempts[id], token, handoff, s, session, now)) ==>
      Attempts.ClaimReauthentication(attempts, token, handoff, s, session, now) == attempts
  {
    var logins := Attempts.ClaimLogin(attempts, token, handoff, now);
    var proofs := Attempts.ClaimReauthentication(attempts, token, handoff, s, session, now);
    assert logins.Keys == attempts.Keys == proofs.Keys;
    if forall id :: id in attempts ==> !Attempts.CanClaimLogin(attempts[id], token, handoff, now) {
      assert forall id :: id in attempts ==> logins[id] == attempts[id];
      assert logins == attempts;
    }
    if forall id :: id in attempts ==>
      !Attempts.CanClaimReauthentication(attempts[id], token, handoff, s, session, now) {
      assert forall id :: id in attempts ==> proofs[id] == attempts[id];
      assert proofs == attempts;
    }
  }

  // No claim, or the reply of the account transaction.
  datatype ProviderReply = HandoffRejected | Replied(reply: Reply)

  /** CreateProviderSession: the claim and the account tables commit or roll back together. */
  method CreateProviderSession(
    db: Store, attempts: Attempts.Repository, token: Attempts.Secret, handoff: Attempts.Secret, claimAt: Time,
    rejectAt: Time, tx: Tx) returns (r: ProviderReply)
    requires tx.ProviderLogin? && tx.subject !in db.accounts
    modifies db, attempts
    ensures r.HandoffRejected? <==>
      forall id :: id in old(attempts.attempts) ==>
        !Attempts.CanClaimLogin(old(attempts.attempts)[id], token, handoff, claimAt)
    ensures r.HandoffRejected? ==>
      db.Contents() == old(db.Contents())
        && attempts.attempts == Attempts.CountFailure(old(attempts.attempts), token, rejectAt)
    ensures r.Replied? ==> exists id ::
      && id in old(attempts.attempts) && Attempts.CanClaimLogin(old(attempts.attempts)[id], token, handoff, claimAt)
      && (r.reply, db.Contents()) ==
           RunProviderLogin(old(db.Contents()), tx.(who := old(attempts.attempts)[id].result.value.identity))
      && attempts.attempts ==
          if r.reply == Refused(Unavailable) then old(attempts.attempts)
          else Attempts.ClaimLogin(old(attempts.attempts), token, handoff, claimAt)
  {
    var snapshot := attempts.attempts;
    var claimed := attempts.ClaimProviderResult(token, handoff, claimAt);
    if claimed.None? {
      NothingClaimed(snapshot, token, handoff, tx.subject, tx.session.id, claimAt);
      attempts.RecordFailedProviderHandoff(token, rejectAt);
      return HandoffRejected;
    }
    var reply := AccountServices.ProviderLogin(db, tx.(who := claimed.value));
    if reply == Refused(Unavailable) {
      attempts.attempts := snapshot;
    }
    r := Replied(reply);
  }

  /**
   CompleteProviderReauthentication: claims for the locked session, and opens its window
   when the identity is linked to the subject. An unlinked result stays claimed.
   */
  method CompleteProviderReauthentication(
    db: Store, attempts: Attempts.Repository, token: Attempts.Secret, handoff: Attempts.Secret, firstLockAt: Time,
    firstObservedAt: Time, claimAt: Time, rejectAt: Time, tx: Tx) returns (r: ProviderReply)
    requires tx.ReauthenticateWithProof?
    modifies db, attempts
    ensures !SessionLocked(old(db.Contents()), tx.caller, tx.login, firstLockAt, firstObservedAt) ==>
      r == Replied(Refused(Unauthenticated)) && db.Contents() == old(db.Contents())
        && attempts.attempts == old(attempts.attempts)
    ensures r.HandoffRejected? ==>
      db.Contents() == old(db.Contents())
        && attempts.attempts == Attempts.CountFailure(old(attempts.attempts), token, rejectAt)
    ensures r.Replied? && r.reply.Refused? ==> db.Contents() == old(db.Contents())
    ensures r == Replied(Refused(ProviderAccountUnavailable)) ==>
      attempts.attempts ==
        Attempts.ClaimReauthentication(old(attempts.attempts), token, handoff, tx.caller, tx.login, claimAt)
    ensures r == Replied(Refused(Unauthenticated)) ==> attempts.attempts == old(attempts.attempts)
    ensures r == Replied(Accepted) ==> exists id ::
      && id in old(attempts.attempts)
      && Attempts.CanClaimReauthentication(old(attempts.attempts)[id], token, handoff, tx.caller, tx.login, claimAt)
      && old(attempts.attempts)[id].result.value.identity in old(db.links)
      && old(db.links)[old(attempts.attempts)[id].result.value.identity] == tx.caller
      && (Accepted, db.Contents()) == RunReauthenticateWithProof(old(db.Contents()), tx)
      && attempts.attempts ==
           Attempts.ClaimReauthentication(old(attempts.attempts), token, handoff, tx.caller, tx.login, claimAt)
  {
    if !SessionLocked(db.Contents(), tx.caller, tx.login, firstLockAt, firstObservedAt) {
      return Replied(Refused(Unauthenticated));
    }
    var snapshot := attempts.attempts;
    var claimed := attempts.ClaimProviderReauthenticationResult(tx.caller, tx.login, token, handoff, claimAt);
    if claimed.None? {
      NothingClaimed(snapshot, token, handoff, tx.caller, tx.login, claimAt);
      attempts.RecordFailedProviderHandoff(token, rejectAt);
      return HandoffRejected;
    }
    if claimed.value !in db.links || db.links[claimed.value] != tx.caller {
      return Replied(Refused(ProviderAccountUnavailable));
    }
    var reply := AccountServices.ReauthenticateWithProof(db, tx);
    if reply != Accepted {
      attempts.attempts := snapshot;
    }
    r := Replied(reply);
  }

  // ----- Runs of both machines -----

  // The attempt that a claim takes.
  ghost predicate Takes(m: Attempts.Machine, s: Attempts.Step, now: Time, id: Attempts.AttemptId) {
    Attempts.OutcomeOf(m.attempts, s, now) == Attempts.Row(id) && id in m.attempts && m.attempts[id].result.Some?
  }

  // A provider login is the claim of a login attempt together with the account transaction for the identity that the
  // attempt recorded.
  ghost predicate LoginInStep(st: State, a: Action, m: Attempts.Machine, s: Attempts.Step, now: Time) {
    a.Transact? && a.tx.ProviderLogin? ==>
      && s.ClaimForLogin? && s.commits == (ReplyOf(RunProviderLogin(st.db, a.tx)) != Refused(Unavailable))
      && exists id :: Takes(m, s, now, id) && m.attempts[id].result.value.identity == a.tx.who
  }

  predicate LinkedTo(st: State, who: ProviderIdentity, s: Subject) {
    who in st.db.links && st.db.links[who] == s
  }

  // A committed claim for re-authentication comes with the accepted transaction of its session when the identity that
  // the attempt recorded is linked to the subject, and alone otherwise.
  ghost predicate ProofInStep(st: State, a: Action, m: Attempts.Machine, s: Attempts.Step, now: Time) {
    s.ClaimForReauthentication? && s.commits ==>
      forall id :: Takes(m, s, now, id) ==>
        if LinkedTo(st, m.attempts[id].result.value.identity, s.subject) then
          && a.Transact? && a.tx.ReauthenticateWithProof? && a.tx.caller == s.subject && a.tx.login == s.session
          && ReplyOf(RunReauthenticateWithProof(st.db, a.tx)) == Accepted
        else !a.Transact?
  }

  ghost predicate InStep(st: State, a: Action, m: Attempts.Machine, s: Attempts.Step, now: Time) {
    LoginInStep(st, a, m, s, now) && ProofInStep(st, a, m, s, now)
  }

  /** Both machines side by side: a step of only one of them is a Tick to the present, or a Wait, of the other. */
  ghost predicate JointRun(
    states: seq<State>, actions: seq<Action>, machines: seq<Attempts.Machine>, steps: seq<Attempts.Step>)
  {
    && IsRun(states, actions) && Attempts.IsRun(machines, steps) && |actions| == |steps|
    && forall i :: 0 <= i < |actions| ==> InStep(states[i], actions[i], machines[i], steps[i], machines[i + 1].now)
  }

  ghost predicate LogsIn(states: seq<State>, actions: seq<Action>, i: nat) {
    && |states| == |actions| + 1 && i < |actions| && actions[i].Transact? && actions[i].tx.ProviderLogin?
    && ReplyOf(RunProviderLogin(states[i].db, actions[i].tx)) == Accepted
  }

  lemma LoginOpensLinkedSession(st: State, tx: Tx)
    requires Inv(st) && Enabled(st, Transact(tx)) && tx.ProviderLogin?
    requires ReplyOf(RunProviderLogin(st.db, tx)) == Accepted
    ensures var db' := After(RunProviderLogin(st.db, tx));
      && tx.session.id !in st.db.sessions && tx.session.id in db'.sessions
      && tx.who in db'.links && db'.links[tx.who] == db'.sessions[tx.session.id].subject
  {
    hide RunProviderLogin, TimesOk, HoldsValid, OneHoldPerAccount, OutboxOk, PartitionsOk, Valid, Outcomes.CodeQueued;
    Outcomes.ProviderLoginOutcome(st.db, tx);
    if tx.who !in st.db.links { Outcomes.NewProviderAccountOutcome(st.db, st.settled, st.now, tx); }
  }

  lemma LoginStep(states: seq<State>, actions: seq<Action>, i: nat)
    requires IsRun(states, actions) && LogsIn(states, actions, i)
    ensures var tx, db, db' := actions[i].tx, states[i].db, states[i + 1].db;
      && tx.session.id !in db.sessions && tx.session.id in db'.sessions
      && tx.who in db'.links && db'.links[tx.who] == db'.sessions[tx.session.id].subject
  {
    hide Inv, RunProviderLogin;
    RunKeeps(states, actions, i);
    assert Enabled(states[i], actions[i]) && states[i + 1].db == After(RunProviderLogin(states[i].db, actions[i].tx));
    LoginOpensLinkedSession(states[i], actions[i].tx);
  }

  /**
   In every run the session of an accepted provider login has a claimed login attempt: one
   that was created for login, and the identity that its callback brought is linked to the
   session's account.
   */
  lemma LoginsHaveAttempts(
    states: seq<State>, actions: seq<Action>, machines: seq<Attempts.Machine>, steps: seq<Attempts.Step>, i: nat)
    requires JointRun(states, actions, machines, steps) && LogsIn(states, actions, i)
    ensures var session := actions[i].tx.session.id;
      session in states[i + 1].db.sessions && exists id, result ::
        && Attempts.ClaimedAt(machines, steps, i, id) && Attempts.CreatedAs(machines, steps, i, id, Attempts.Login)
        && AttemptHistory.WasRecorded(machines, steps, i, id, result)
        && LinkedTo(states[i + 1], result.identity, states[i + 1].db.sessions[session].subject)
  {
    assert |machines| == |steps| + 1 by { Attempts.RunLength(machines, steps); }
    hide IsRun, Attempts.IsRun, RunProviderLogin;
    var a := actions[i];
    LoginStep(states, actions, i);
    var id :| Takes(machines[i], steps[i], machines[i + 1].now, id)
      && machines[i].attempts[id].result.value.identity == a.tx.who;
    assert Attempts.ClaimedAt(machines, steps, i, id);
    Attempts.ClaimsMatchBinding(machines, steps, i, id);
    AttemptHistory.ResultsAreRecorded(machines, steps, i, id, machines[i].attempts[id].result.value);
    hide AttemptHistory.WasRecorded, Attempts.ClaimedAt, Attempts.CreatedAs;
  }

  /**
   In every run a provider claim that re-authenticates took an attempt that was created for the
   session and its subject, and the identity that its callback brought is linked to the subject.
   */
  lemma ProofsHaveAttempts(
    states: seq<State>, actions: seq<Action>, machines: seq<Attempts.Machine>, steps: seq<Attempts.Step>, i: nat,
    id: Attempts.AttemptId)
    requires JointRun(states, actions, machines, steps) && Attempts.ClaimedAt(machines, steps, i, id)
    requires steps[i].ClaimForReauthentication? && actions[i].Transact?
    ensures var tx := actions[i].tx;
      && tx.ReauthenticateWithProof? && ReplyOf(RunReauthenticateWithProof(states[i].db, tx)) == Accepted
      && Attempts.CreatedAs(machines, steps, i, id, Attempts.Reauthenticate(tx.caller, tx.login))
      && exists result ::
           AttemptHistory.WasRecorded(machines, steps, i, id, result) && LinkedTo(states[i], result.identity, tx.caller)
  {
    assert |states| == |actions| + 1 && |machines| == |steps| + 1 && i < |actions|;
    hide IsRun, Attempts.IsRun, RunReauthenticateWithProof, RunProviderLogin;
    Attempts.ClaimsMatchBinding(machines, steps, i, id);
    assert id in machines[i].attempts && machines[i].attempts[id].result.Some? by {
      hide JointRun;
      assert Attempts.IsRun(machines, steps) by { JointRunParts(states, actions, machines, steps); }
      AttemptHistory.DidToRow(machines, steps, i, id);
    }
    assert InStep(states[i], actions[i], machines[i], steps[i], machines[i + 1].now);
    assert Takes(machines[i], steps[i], machines[i + 1].now, id);
    AttemptHistory.ResultsAreRecorded(machines, steps, i, id, machines[i].attempts[id].result.value);
    hide AttemptHistory.WasRecorded;
  }

  lemma JointRunParts(
    states: seq<State>, actions: seq<Action>, machines: seq<Attempts.Machine>, steps: seq<Attempts.Step>)
    requires JointRun(states, actions, machines, steps)
    ensures IsRun(states, actions) && Attempts.IsRun(machines, steps)
  {
    hide IsRun, Attempts.IsRun, InStep;
  }

  lemma SessionStays(states: seq<State>, actions: seq<Action>, i: nat, j: nat)
    requires IsRun(states, actions) && LogsIn(states, actions, i) && LogsIn(states, actions, j) && i < j
    ensures actions[i].tx.session.id != actions[j].tx.session.id
  {
    hide IsRun, Inv, RunProviderLogin, AccountsAdvance, TokensAdvance, ChallengesAdvance, DeliveriesAdvance;
    hide EventsAdvance, LinksAdvance;
    LoginStep(states, actions, i);
    LoginStep(states, actions, j);
    RunAdvances(states, actions, i + 1, j);
  }

  /**
   Login sessions map injectively to claimed attempts: different provider logins open different sessions and take
   different attempts and tokens.
   */
  lemma LoginsAreInjective(
    states: seq<State>, actions: seq<Action>, machines: seq<Attempts.Machine>, steps: seq<Attempts.Step>, i: nat,
    j: nat, x: Attempts.AttemptId, y: Attempts.AttemptId)
    requires JointRun(states, actions, machines, steps) && LogsIn(states, actions, i) && LogsIn(states, actions, j)
    requires i != j
    requires Attempts.ClaimedAt(machines, steps, i, x) && Attempts.ClaimedAt(machines, steps, j, y)
    ensures actions[i].tx.session.id != actions[j].tx.session.id && x != y && steps[i].token != steps[j].token
  {
    hide IsRun, Attempts.IsRun, LogsIn;
    if i < j {
      SessionStays(states, actions, i, j);
    } else {
      SessionStays(states, actions, j, i);
    }
    if x == y { Attempts.ClaimsAreInjective(machines, steps, i, j, x); }
    if steps[i].token == steps[j].token {
      if i < j { Attempts.TokensClaimOnce(machines, steps, i, j, x, y); } else {
        Attempts.TokensClaimOnce(machines, steps, j, i, y, x);
      }
    }
  }

  /** A login that is refused because the account is unavailable keeps its attempt claimed: no later claim takes it. */
  lemma RefusedLoginStaysClaimed(
    states: seq<State>, actions: seq<Action>, machines: seq<Attempts.Machine>, steps: seq<Attempts.Step>, i: nat,
    j: nat, x: Attempts.AttemptId)
    requires JointRun(states, actions, machines, steps) && i < j < |actions| && actions[i].Transact?
    requires actions[i].tx.ProviderLogin?
    requires ReplyOf(RunProviderLogin(states[i].db, actions[i].tx)) == Refused(ProviderAccountUnavailable)
    requires Takes(machines[i], steps[i], machines[i + 1].now, x)
    ensures !Attempts.ClaimedAt(machines, steps, j, x)
  {
    hide IsRun, Attempts.IsRun, RunProviderLogin;
    assert |machines| == |steps| + 1 by { Attempts.RunLength(machines, steps); }
    assert Attempts.ClaimedAt(machines, steps, i, x);
    if Attempts.ClaimedAt(machines, steps, j, x) { Attempts.ClaimsAreInjective(machines, steps, i, j, x); }
  }
}
