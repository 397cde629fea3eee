/**
 Provider login and re-authentication attempts: a one-shot state machine per attempt,
 with one guarded UPDATE per step.
 */
module ProviderAttempts {
  import opened Options
  import opened Clock
  import opened Schema
  import Erasure

  type AttemptId = int
  // The keyed verifier of an attempt token, a state or a handoff code.
  type Secret = int

  // The binding check: an attempt has a subject and a session exactly when it re-authenticates.
  datatype Use = Login | Reauthenticate(subject: Subject, session: SessionId)

  datatype Result = Result(identity: ProviderIdentity, handoff: Secret)

  datatype Attempt = Attempt(
    provider: int,
    token: Secret,
    state: Secret,
    use: Use,
    expiresAt: Time,
    stateConsumedAt: Option<Time>,
    failedAt: Option<Time>,
    result: Option<Result>,
    handoffFailures: int,
    sessionClaimedAt: Option<Time>,
    reauthenticationClaimedAt: Option<Time>)

  type Attempts = map<AttemptId, Attempt>

  const LIFETIME := 10 * MINUTE

  // ----- Statements -----

  function CreateAttempt(
    attempts: Attempts, id: AttemptId, provider: int, token: Secret, state: Secret, use: Use, now: Time): Attempts
  {
    attempts[id := Attempt(provider, token, state, use, now + LIFETIME, None, None, None, 0, None, None)]
  }

  predicate CanConsume(a: Attempt, provider: int, state: Secret, now: Time) {
    a.provider == provider && a.state == state && a.stateConsumedAt.None? && a.expiresAt > now
  }

  function ConsumeState(attempts: Attempts, provider: int, state: Secret, now: Time): Attempts {
    map id | id in attempts ::
      if CanConsume(attempts[id], provider, state, now)
        then attempts[id].(stateConsumedAt := Some(now)) else attempts[id]
  }

  predicate CanRecord(a: Attempt, now: Time) {
    a.stateConsumedAt.Some? && a.failedAt.None? && a.result.None? && a.expiresAt > now
  }

  function RecordResult(attempts: Attempts, id: AttemptId, result: Result, now: Time): Attempts {
    if id in attempts
      && CanRecord(attempts[id], now) then attempts[id := attempts[id].(result := Some(result))] else attempts
  }

  function FailAttempt(attempts: Attempts, id: AttemptId, now: Time): Attempts {
    if id in attempts && attempts[id].stateConsumedAt.Some? && attempts[id].failedAt.None? && attempts[id].result.None?
    then attempts[id := attempts[id].(failedAt := Some(now))] else attempts
  }

  predicate Presents(a: Attempt, token: Secret, handoff: Secret) {
    a.token == token && a.result.Some? && a.result.value.handoff == handoff
  }

  predicate CanClaimLogin(a: Attempt, token: Secret, handoff: Secret, now: Time) {
    Presents(a, token, handoff) && a.use.Login? && a.sessionClaimedAt.None? && a.handoffFailures < 5
      && a.expiresAt > now
  }

  function ClaimLogin(attempts: Attempts, token: Secret, handoff: Secret, now: Time): Attempts {
    map id | id in attempts ::
      if CanClaimLogin(attempts[id], token, handoff, now)
        then attempts[id].(sessionClaimedAt := Some(now)) else attempts[id]
  }

  predicate CanClaimReauthentication(
    a: Attempt, token: Secret, handoff: Secret, s: Subject, session: SessionId, now: Time)
  {
    && Presents(a, token, handoff) && a.use == Reauthenticate(s, session)
    && a.reauthenticationClaimedAt.None? && a.handoffFailures < 5 && a.expiresAt > now
  }

  function ClaimReauthentication(
    attempts: Attempts, token: Secret, handoff: Secret, s: Subject, session: SessionId, now: Time): Attempts
  {
    map id | id in attempts ::
      if CanClaimReauthentication(attempts[id], token, handoff, s, session, now)
      then attempts[id].(reauthenticationClaimedAt := Some(now)) else attempts[id]
  }

  predicate CanCount(a: Attempt, token: Secret, now: Time) {
    && a.token == token && a.sessionClaimedAt.None? && a.reauthenticationClaimedAt.None?
    && a.handoffFailures < 5 && a.expiresAt > now
  }

  function CountFailure(attempts: Attempts, token: Secret, now: Time): Attempts {
    map id | id in attempts ::
      if CanCount(attempts[id], token, now)
        then attempts[id].(handoffFailures := attempts[id].handoffFailures + 1) else attempts[id]
  }

  function DeleteExpired(attempts: Attempts, now: Time): Attempts {
    map id | id in attempts && attempts[id].expiresAt > now :: attempts[id]
  }

  // ----- The repository -----

  class Repository {
    var attempts: Attempts

    constructor ()
      ensures attempts == map[]
    {
      attempts := map[];
    }

    // A session binds the attempt to re-authentication; an attempt without one logs in.
    method CreateProviderAttempt(
      id: AttemptId, provider: int, token: Secret, state: Secret, binding: Option<(Subject, SessionId)>, now: Time)
      requires id !in attempts
      modifies this
      ensures attempts == CreateAttempt(old(attempts), id, provider, token, state,
        if binding.Some? then Reauthenticate(binding.value.0, binding.value.1) else Login, now)
    {
      var use := Login;
      if binding.Some? {
        use := Reauthenticate(binding.value.0, binding.value.1);
      }
      attempts := attempts[id := Attempt(provider, token, state, use, now + 10 * MINUTE, None, None, None, 0, None,
        None)];
    }

    method ConsumeProviderState(provider: int, state: Secret, now: Time) returns (found: Option<AttemptId>)
      modifies this
      ensures attempts == ConsumeState(old(attempts), provider, state, now)
      ensures found.Some? ==>
        found.value in old(attempts) && CanConsume(old(attempts)[found.value], provider, state, now)
      ensures found.None? ==> forall id :: id in old(attempts) ==> !CanConsume(old(attempts)[id], provider, state, now)
    {
      if id :| id in attempts && CanConsume(attempts[id], provider, state, now) {
        found := Some(id);
      } else {
        found := None;
      }
      attempts := map k | k in attempts ::
        if CanConsume(attempts[k], provider, state, now)
          then attempts[k].(stateConsumedAt := Some(now)) else attempts[k];
    }

    method RecordProviderResult(id: AttemptId, result: Result, now: Time) returns (stored: bool)
      modifies this
      ensures attempts == RecordResult(old(attempts), id, result, now)
      ensures stored == (id in old(attempts) && CanRecord(old(attempts)[id], now))
    {
      stored := id in attempts && CanRecord(attempts[id], now);
      if stored {
        attempts := attempts[id := attempts[id].(result := Some(result))];
      }
    }

    method FailProviderAttempt(id: AttemptId, now: Time)
      modifies this
      ensures attempts == FailAttempt(old(attempts), id, now)
    {
      if id in attempts && attempts[id].stateConsumedAt.Some? && attempts[id].failedAt.None?
        && attempts[id].result.None? {
        attempts := attempts[id := attempts[id].(failedAt := Some(now))];
      }
    }

    method ClaimProviderResult(token: Secret, handoff: Secret, now: Time) returns (claimed: Option<ProviderIdentity>)
      modifies this
      ensures attempts == ClaimLogin(old(attempts), token, handoff, now)
      ensures claimed.Some? <==>
        exists id :: id in old(attempts) && CanClaimLogin(old(attempts)[id], token, handoff, now)
      ensures claimed.Some? ==> exists id ::
        id in old(attempts) && CanClaimLogin(old(attempts)[id], token, handoff, now)
          && claimed.value == old(attempts)[id].result.value.identity
    {
      if id :| id in attempts && CanClaimLogin(attempts[id], token, handoff, now) {
        claimed := Some(attempts[id].result.value.identity);
      } else {
        claimed := None;
      }
      attempts := map k | k in attempts ::
        if CanClaimLogin(attempts[k], token, handoff, now)
          then attempts[k].(sessionClaimedAt := Some(now)) else attempts[k];
    }

    method ClaimProviderReauthenticationResult(
      s: Subject, session: SessionId, token: Secret, handoff: Secret, now: Time)
      returns (claimed: Option<ProviderIdentity>)
      modifies this
      ensures attempts == ClaimReauthentication(old(attempts), token, handoff, s, session, now)
      ensures claimed.Some? <==>
        exists id :: id in old(attempts) && CanClaimReauthentication(old(attempts)[id], token, handoff, s, session, now)
      ensures claimed.Some? ==> exists id ::
        && id in old(attempts) && CanClaimReauthentication(old(attempts)[id], token, handoff, s, session, now)
        && claimed.value == old(attempts)[id].result.value.identity
    {
      if id :| id in attempts && CanClaimReauthentication(attempts[id], token, handoff, s, session, now) {
        claimed := Some(attempts[id].result.value.identity);
      } else {
        claimed := None;
      }
      attempts := map k | k in attempts ::
        if CanClaimReauthentication(attempts[k], token, handoff, s, session, now)
        then attempts[k].(reauthenticationClaimedAt := Some(now)) else attempts[k];
    }

    method RecordFailedProviderHandoff(token: Secret, now: Time)
      modifies this
      ensures attempts == CountFailure(old(attempts), token, now)
    {
      attempts := map k | k in attempts ::
        if CanCount(attempts[k], token, now)
          then attempts[k].(handoffFailures := attempts[k].handoffFailures + 1) else attempts[k];
    }

    method PurgeExpired(now: Time)
      modifies this
      ensures attempts == DeleteExpired(old(attempts), now)
    {
      attempts := map k | k in attempts && attempts[k].expiresAt > now :: attempts[k];
    }

    /** CreateProviderSession up to the claim: a handoff that claims nothing counts against its attempt. */
    method ClaimOrReject(
      token: Secret, handoff: Secret, now: Time, rejectedAt: Time) returns (claimed: Option<ProviderIdentity>)
      modifies this
      ensures claimed.Some? <==>
        exists id :: id in old(attempts) && CanClaimLogin(old(attempts)[id], token, handoff, now)
      ensures attempts ==
        if claimed.Some? then ClaimLogin(old(attempts), token, handoff, now)
        else CountFailure(ClaimLogin(old(attempts), token, handoff, now), token, rejectedAt)
    {
      claimed := ClaimProviderResult(token, handoff, now);
      if claimed.None? {
        RecordFailedProviderHandoff(token, rejectedAt);
      }
    }
  }

  // ----- Runs -----

  datatype Step =
    | Create(id: AttemptId, provider: int, token: Secret, state: Secret, use: Use)
    | Consume(provider: int, state: Secret)
    | Record(id: AttemptId, result: Result)
    | Fail(id: AttemptId)
    // The transaction of a claim may still roll back.
    | ClaimForLogin(token: Secret, handoff: Secret, commits: bool)
    | ClaimForReauthentication(token: Secret, handoff: Secret, subject: Subject, session: SessionId, commits: bool)
    | Count(token: Secret)
    | Purge
    // Some other table changes.
    | Wait

  // What the caller of a statement learns from the rows that it changed.
  datatype Outcome = NoRow | Row(id: AttemptId)

  datatype Machine = Machine(attempts: Attempts, now: Time, ids: set<AttemptId>, secrets: set<Secret>,
    outcomes: seq<Outcome>)

  const START := Machine(map[], 0, {}, {}, [])

  // Tokens, states, handoff codes and row ids are fresh random values.
  predicate Fresh(m: Machine, s: Step) {
    match s
    case Create(id, _, token, state, _) => id !in m.ids && token !in m.secrets && state !in m.secrets && token != state
    case Record(_, result) => result.handoff !in m.secrets
    case _ => true
  }

  function Drawn(s: Step): set<Secret> {
    match s
    case Create(_, _, token, state, _) => {token, state}
    case Record(_, result) => {result.handoff}
    case _ => {}
  }

  function After(attempts: Attempts, s: Step, now: Time): Attempts {
    match s
    case Create(id, provider, token, state, use) => CreateAttempt(attempts, id, provider, token, state, use, now)
    case Consume(provider, state) => ConsumeState(attempts, provider, state, now)
    case Record(id, result) => RecordResult(attempts, id, result, now)
    case Fail(id) => FailAttempt(attempts, id, now)
    case ClaimForLogin(token, handoff, commits) =>
      if commits then ClaimLogin(attempts, token, handoff, now) else attempts
    case ClaimForReauthentication(token, handoff, s, session, commits) =>
      if commits then ClaimReauthentication(attempts, token, handoff, s, session, now) else attempts
    case Count(token) => CountFailure(attempts, token, now)
    case Purge => DeleteExpired(attempts, now)
    case Wait => attempts
  }

  // The row that a step changes and reports.
  predicate Reports(attempts: Attempts, s: Step, now: Time, id: AttemptId) {
    && id in attempts
    && match s
       case Consume(provider, state) => CanConsume(attempts[id], provider, state, now)
       case Record(r, _) => r == id && CanRecord(attempts[id], now)
       case ClaimForLogin(token, handoff, _) => CanClaimLogin(attempts[id], token, handoff, now)
       case ClaimForReauthentication(token, handoff, s, session, _) =>
         CanClaimReauthentication(attempts[id], token, handoff, s, session, now)
       case _ => false
  }

  ghost function OutcomeOf(attempts: Attempts, s: Step, now: Time): (o: Outcome)
    ensures o.Row? ==> Reports(attempts, s, now, o.id)
    ensures o.NoRow? ==> forall id :: !Reports(attempts, s, now, id)
  {
    if exists id :: Reports(attempts, s, now, id) then
      var id :| Reports(attempts, s, now, id);
      Row(id)
    else NoRow
  }

  ghost function Next(m: Machine, s: Step, now: Time): Machine {
    Machine(
      After(m.attempts, s, now), now,
      if s.Create? then m.ids + {s.id} else m.ids,
      m.secrets + Drawn(s),
      if s.Purge? then m.outcomes else m.outcomes + [OutcomeOf(m.attempts, s, now)])
  }

  /** A run: statement times do not go back, and every secret is fresh. */
  ghost predicate IsRun(machines: seq<Machine>, steps: seq<Step>) {
    && |machines| == |steps| + 1 && machines[0] == START
    && forall i :: 0 <= i < |steps| ==>
         && machines[i].now <= machines[i + 1].now && Fresh(machines[i], steps[i])
         && machines[i + 1] == Next(machines[i], steps[i], machines[i + 1].now)
  }

  // ----- Invariant -----

  predicate AttemptValid(a: Attempt) {
    && ((a.sessionClaimedAt.Some? || a.reauthenticationClaimedAt.Some?) ==> a.result.Some?)
    && (a.result.Some? ==> a.stateConsumedAt.Some? && a.failedAt.None?)
    && (a.failedAt.Some? ==> a.stateConsumedAt.Some?)
    && 0 <= a.handoffFailures <= 5
    && (a.sessionClaimedAt.Some? ==> a.use.Login?)
    && (a.reauthenticationClaimedAt.Some? ==> a.use.Reauthenticate?)
  }

  ghost predicate AllValid(attempts: Attempts) {
    forall id :: id in attempts ==> AttemptValid(attempts[id])
  }

  // The unique keys of the table.
  ghost predicate KeysUnique(attempts: Attempts) {
    forall i, j ::
      && i in attempts && j in attempts
      && (attempts[i].token == attempts[j].token || attempts[i].state == attempts[j].state)
      ==> i == j
  }

  ghost predicate SecretsDrawn(attempts: Attempts, ids: set<AttemptId>, secrets: set<Secret>) {
    forall id :: id in attempts ==> id in ids && attempts[id].token in secrets && attempts[id].state in secrets
  }

  ghost predicate MachineValid(m: Machine) {
    AllValid(m.attempts) && KeysUnique(m.attempts) && SecretsDrawn(m.attempts, m.ids, m.secrets)
  }

  predicate AttemptAdvances(a: Attempt, b: Attempt) {
    && b.provider == a.provider && b.token == a.token && b.state == a.state && b.use == a.use
    && b.expiresAt == a.expiresAt
    && (a.stateConsumedAt.Some? ==> b.stateConsumedAt == a.stateConsumedAt)
    && (a.failedAt.Some? ==> b.failedAt == a.failedAt)
    && (a.result.Some? ==> b.result == a.result)
    && (a.sessionClaimedAt.Some? ==> b.sessionClaimedAt == a.sessionClaimedAt)
    && (a.reauthenticationClaimedAt.Some? ==> b.reauthenticationClaimedAt == a.reauthenticationClaimedAt)
    && a.handoffFailures <= b.handoffFailures
  }

  // A deleted attempt does not come back: its id and secrets were drawn.
  ghost predicate Advances(m: Machine, n: Machine) {
    && m.ids <= n.ids && m.secrets <= n.secrets && m.now <= n.now
    && (forall id :: id in n.attempts && id in m.ids ==>
         id in m.attempts && AttemptAdvances(m.attempts[id], n.attempts[id]))
    && (forall id :: id in n.attempts && id !in m.ids ==>
         n.attempts[id].token !in m.secrets && n.attempts[id].state !in m.secrets)
  }

  lemma StepKeeps(m: Machine, s: Step, now: Time)
    requires MachineValid(m) && Fresh(m, s) && m.now <= now
    ensures MachineValid(Next(m, s, now)) && Advances(m, Next(m, s, now))
  {
    var n := Next(m, s, now);
    assert n.attempts == After(m.attempts, s, now) && n.now == now;
    hide OutcomeOf;
    if s.Create? {
      CreateKeeps(m, s, now);
    } else {
      UpdatesKeep(m.attempts, s, now);
      RowsKeep(m, n);
    }
  }

  lemma CreateKeeps(m: Machine, s: Step, now: Time)
    requires MachineValid(m) && Fresh(m, s) && m.now <= now && s.Create?
    ensures MachineValid(Next(m, s, now)) && Advances(m, Next(m, s, now))
  {
    hide OutcomeOf;
  }

  // Every other statement changes rows forward or deletes them.
  lemma UpdatesKeep(attempts: Attempts, s: Step, now: Time)
    requires AllValid(attempts) && !s.Create?
    ensures var after := After(attempts, s, now);
      AllValid(after) && forall id :: id in after ==> id in attempts && AttemptAdvances(attempts[id], after[id])
  {
  }

  lemma RowsKeep(m: Machine, n: Machine)
    requires MachineValid(m) && AllValid(n.attempts) && m.ids <= n.ids && m.secrets <= n.secrets && m.now <= n.now
    requires forall id :: id in n.attempts ==> id in m.attempts && AttemptAdvances(m.attempts[id], n.attempts[id])
    ensures MachineValid(n) && Advances(m, n)
  {
    hide AttemptValid;
  }

  lemma {:induction false} RunKeeps(machines: seq<Machine>, steps: seq<Step>, i: nat, j: nat)
    requires IsRun(machines, steps) && i <= j < |machines|
    ensures MachineValid(machines[i]) && MachineValid(machines[j]) && Advances(machines[i], machines[j])
    decreases j
  {
    if j > 0 {
      RunKeeps(machines, steps, if i < j then i else i - 1, j - 1);
      StepKeeps(machines[j - 1], steps[j - 1], machines[j].now);
      if i < j { AdvancesIsTransitive(machines[i], machines[j - 1], machines[j]); }
    }
  }

  lemma AdvancesIsTransitive(a: Machine, b: Machine, c: Machine)
    requires Advances(a, b) && Advances(b, c)
    ensures Advances(a, c)
  {
  }

  // ----- Theorems -----

  /**
   In every reachable state: claimed implies recorded, recorded implies consumed and not failed, and at most five
   failures.
   */
  lemma AttemptsAreConsistent(machines: seq<Machine>, steps: seq<Step>, n: nat, id: AttemptId)
    requires IsRun(machines, steps) && n < |machines| && id in machines[n].attempts
    ensures AttemptValid(machines[n].attempts[id])
  {
    hide Next, KeysUnique, SecretsDrawn;
    RunKeeps(machines, steps, n, n);
  }

  predicate IsClaim(s: Step) {
    (s.ClaimForLogin? || s.ClaimForReauthentication?) && s.commits
  }

  // The committed claim of attempt `id` at step `i`.
  ghost predicate ClaimedAt(machines: seq<Machine>, steps: seq<Step>, i: nat, id: AttemptId) {
    |machines| == |steps| + 1 && i < |steps| && IsClaim(steps[i])
      && OutcomeOf(machines[i].attempts, steps[i], machines[i + 1].now) == Row(id)
  }

  predicate Closed(a: Attempt) {
    a.sessionClaimedAt.Some? || a.reauthenticationClaimedAt.Some? || a.handoffFailures == 5
  }

  lemma ClosedStays(machines: seq<Machine>, steps: seq<Step>, i: nat, j: nat, id: AttemptId)
    requires IsRun(machines, steps) && i <= j < |machines| && id in machines[i].attempts
    requires Closed(machines[i].attempts[id])
    ensures id in machines[j].attempts ==> Closed(machines[j].attempts[id])
  {
    hide Next, KeysUnique;
    RunKeeps(machines, steps, i, j);
    if id in machines[j].attempts { assert AttemptValid(machines[j].attempts[id]); }
  }

  lemma ClosedIsNotClaimed(machines: seq<Machine>, steps: seq<Step>, i: nat, j: nat, id: AttemptId)
    requires IsRun(machines, steps) && i <= j < |steps| && id in machines[i].attempts
    requires Closed(machines[i].attempts[id])
    requires IsClaim(steps[j])
    ensures OutcomeOf(machines[j].attempts, steps[j], machines[j + 1].now) != Row(id)
  {
    hide Next, KeysUnique, IsRun, SecretsDrawn;
    assert |machines| == |steps| + 1 by { RunLength(machines, steps); }
    ClosedStays(machines, steps, i, j, id);
    AttemptsAreValidAt(machines, steps, j);
    assert !Reports(machines[j].attempts, steps[j], machines[j + 1].now, id);
  }

  lemma RunLength(machines: seq<Machine>, steps: seq<Step>)
    requires IsRun(machines, steps)
    ensures |machines| == |steps| + 1
  {
  }

  lemma AttemptsAreValidAt(machines: seq<Machine>, steps: seq<Step>, n: nat)
    requires IsRun(machines, steps) && n < |machines|
    ensures AllValid(machines[n].attempts)
  {
    hide Next, KeysUnique, SecretsDrawn, AllValid;
    RunKeeps(machines, steps, n, n);
  }

  /** The fifth failed handoff closes the attempt: no later claim succeeds. */
  lemma FifthFailureCloses(machines: seq<Machine>, steps: seq<Step>, i: nat, j: nat, id: AttemptId)
    requires IsRun(machines, steps) && i <= j < |steps| && id in machines[i].attempts
    requires machines[i].attempts[id].handoffFailures == 5
    requires IsClaim(steps[j])
    ensures OutcomeOf(machines[j].attempts, steps[j], machines[j + 1].now) != Row(id)
  {
    hide Next, IsRun;
    ClosedIsNotClaimed(machines, steps, i, j, id);
  }

  lemma ClaimCloses(m: Machine, s: Step, now: Time, id: AttemptId)
    requires IsClaim(s) && OutcomeOf(m.attempts, s, now) == Row(id)
    ensures id in Next(m, s, now).attempts && Closed(Next(m, s, now).attempts[id])
  {
    assert Reports(m.attempts, s, now, id);
  }

  /** Two different committed claims claim different attempts: a session issued by a claim has an attempt of its own. */
  lemma ClaimsAreInjective(machines: seq<Machine>, steps: seq<Step>, i: nat, j: nat, id: AttemptId)
    requires IsRun(machines, steps) && ClaimedAt(machines, steps, i, id) && ClaimedAt(machines, steps, j, id)
    ensures i == j
  {
    ClaimStep(machines, steps, i, id);
    ClaimStep(machines, steps, j, id);
    hide Next, IsRun, Closed;
    if i < j { ClosedIsNotClaimed(machines, steps, i + 1, j, id); }
    if j < i { ClosedIsNotClaimed(machines, steps, j + 1, i, id); }
  }

  lemma ClaimStep(machines: seq<Machine>, steps: seq<Step>, i: nat, id: AttemptId)
    requires IsRun(machines, steps) && ClaimedAt(machines, steps, i, id)
    ensures id in machines[i + 1].attempts && Closed(machines[i + 1].attempts[id])
  {
    assert machines[i + 1] == Next(machines[i], steps[i], machines[i + 1].now);
    hide Next;
    ClaimCloses(machines[i], steps[i], machines[i + 1].now, id);
  }

  /** ... and present different attempt tokens, also after the first attempt was deleted. */
  lemma TokensClaimOnce(machines: seq<Machine>, steps: seq<Step>, i: nat, j: nat, id: AttemptId, other: AttemptId)
    requires IsRun(machines, steps) && ClaimedAt(machines, steps, i, id) && ClaimedAt(machines, steps, j, other)
    requires i <= j
    requires steps[i].token == steps[j].token
    ensures i == j && id == other
  {
    hide Next;
    RunKeeps(machines, steps, i, j);
    assert Reports(machines[i].attempts, steps[i], machines[i + 1].now, id);
    assert Reports(machines[j].attempts, steps[j], machines[j + 1].now, other);
    assert id == other;
    ClaimsAreInjective(machines, steps, i, j, id);
  }

  ghost predicate CreatedAs(machines: seq<Machine>, steps: seq<Step>, n: nat, id: AttemptId, use: Use) {
    n <= |steps| && exists k :: 0 <= k < n && steps[k].Create? && steps[k].id == id && steps[k].use == use
  }

  lemma {:induction false} AttemptsWereCreated(machines: seq<Machine>, steps: seq<Step>, n: nat, id: AttemptId)
    requires IsRun(machines, steps) && n < |machines| && id in machines[n].attempts
    ensures CreatedAs(machines, steps, n, id, machines[n].attempts[id].use)
  {
    var m := machines[n - 1];
    assert machines[n] == Next(m, steps[n - 1], machines[n].now);
    if id in m.attempts {
      AttemptsWereCreated(machines, steps, n - 1, id);
      assert !steps[n - 1].Create? || steps[n - 1].id != id by { RunKeeps(machines, steps, n - 1, n - 1); }
    }
  }

  /**
   A re-authentication claim succeeds only for the subject and session that the attempt was created for; a login
   claim only for a login attempt.
   */
  lemma ClaimsMatchBinding(machines: seq<Machine>, steps: seq<Step>, i: nat, id: AttemptId)
    requires IsRun(machines, steps) && ClaimedAt(machines, steps, i, id)
    ensures CreatedAs(machines, steps, i, id,
      if steps[i].ClaimForLogin? then Login else Reauthenticate(steps[i].subject, steps[i].session))
  {
    hide Next;
    assert Reports(machines[i].attempts, steps[i], machines[i + 1].now, id);
    AttemptsWereCreated(machines, steps, i, id);
  }

  /** An attempt's state is consumed at most once. */
  lemma StateConsumedOnce(machines: seq<Machine>, steps: seq<Step>, i: nat, j: nat, id: AttemptId)
    requires IsRun(machines, steps) && i <= j < |steps| && steps[i].Consume? && steps[j].Consume?
    requires OutcomeOf(machines[i].attempts, steps[i], machines[i + 1].now) == Row(id)
    requires OutcomeOf(machines[j].attempts, steps[j], machines[j + 1].now) == Row(id)
    ensures i == j
  {
    assert Reports(machines[i].attempts, steps[i], machines[i + 1].now, id);
    assert Reports(machines[j].attempts, steps[j], machines[j + 1].now, id);
    if i < j {
      assert machines[i + 1] == Next(machines[i], steps[i], machines[i + 1].now);
      assert machines[i + 1].attempts[id].stateConsumedAt.Some?;
      hide Next;
      RunKeeps(machines, steps, i + 1, j);
    }
  }

  // ----- Deleting expired attempts -----

  // `n` is `m` without its purges: it also has attempts that expired.
  ghost predicate Shadows(m: Machine, n: Machine) {
    && n == m.(attempts := n.attempts, now := n.now) && n.now <= m.now
    && (forall id :: id in m.attempts ==> id in n.attempts && n.attempts[id] == m.attempts[id])
    && (forall id :: id in n.attempts && id !in m.attempts ==> n.attempts[id].expiresAt <= m.now)
  }

  // No guard but the one that records a failed callback accepts an expired attempt, and that one reports nothing.
  lemma SameReports(m: Machine, n: Machine, s: Step, now: Time)
    requires Shadows(m, n) && m.now <= now && MachineValid(n)
    ensures OutcomeOf(m.attempts, s, now) == OutcomeOf(n.attempts, s, now)
  {
    hide SecretsDrawn, AllValid;
    assert forall id :: Reports(m.attempts, s, now, id) <==> Reports(n.attempts, s, now, id);
    forall i, j | Reports(n.attempts, s, now, i) && Reports(n.attempts, s, now, j) ensures i == j {
    }
  }

  lemma StepIsShadowed(m: Machine, n: Machine, s: Step, now: Time)
    requires Shadows(m, n) && m.now <= now && MachineValid(n) && !s.Purge?
    ensures Shadows(Next(m, s, now), Next(n, s, now))
  {
    SameReports(m, n, s, now);
    hide OutcomeOf, MachineValid;
  }

  lemma PurgeIsShadowed(m: Machine, n: Machine, now: Time)
    requires Shadows(m, n) && m.now <= now
    ensures Shadows(Next(m, Purge, now), n)
  {
  }

  ghost predicate IsPurge(m: Machine, s: Step) { s.Purge? }

  ghost predicate Steps(m: Machine, s: Step, n: Machine) {
    m.now <= n.now && Fresh(m, s) && n == Next(m, s, n.now)
  }

  ghost predicate Reached(m: Machine, n: Machine) {
    MachineValid(m) && MachineValid(n) && Shadows(m, n)
  }

  lemma RunIsChain(machines: seq<Machine>, steps: seq<Step>)
    ensures IsRun(machines, steps) <==> Erasure.IsChain(Steps, machines, steps) && machines[0] == START
  {
    hide Next, Fresh;
    if IsRun(machines, steps) {
      forall i | 0 <= i < |steps| ensures Steps(machines[i], steps[i], machines[i + 1]) {
      }
    }
    if Erasure.IsChain(Steps, machines, steps) && machines[0] == START {
      forall i | 0 <= i < |steps|
        ensures machines[i].now <= machines[i + 1].now && Fresh(machines[i], steps[i])
        ensures machines[i + 1] == Next(machines[i], steps[i], machines[i + 1].now)
      {
        assert Steps(machines[i], steps[i], machines[i + 1]);
      }
    }
  }

  lemma FreshToBoth(m: Machine, n: Machine, s: Step)
    requires Shadows(m, n) && Fresh(m, s)
    ensures n.now <= m.now && Fresh(n, s)
  {
  }

  lemma NextNow(m: Machine, s: Step, now: Time)
    ensures Next(m, s, now).now == now
  {
  }

  lemma AnyStepIsShadowed(m: Machine, n: Machine, s: Step, now: Time)
    requires Reached(m, n) && m.now <= now && Fresh(m, s)
    ensures exists n' :: Erasure.Answers(Steps, Reached, IsPurge(m, s), s, Next(m, s, now), n, n')
  {
    FreshToBoth(m, n, s);
    NextNow(n, s, now);
    hide Next, Shadows, MachineValid, Fresh;
    StepKeeps(m, s, now);
    if s.Purge? {
      PurgeIsShadowed(m, n, now);
      assert Erasure.Answers(Steps, Reached, IsPurge(m, s), s, Next(m, s, now), n, n);
    } else {
      StepIsShadowed(m, n, s, now);
      StepKeeps(n, s, now);
      assert Erasure.Answers(Steps, Reached, IsPurge(m, s), s, Next(m, s, now), n, Next(n, s, now));
    }
  }

  /** The steps of a run without its purges. */
  ghost function WithoutPurges(machines: seq<Machine>, steps: seq<Step>): seq<Step>
    requires |machines| == |steps| + 1
  {
    Erasure.Remaining(IsPurge, machines, steps)
  }

  /** Deleting expired attempts changes no outcome: the run without its purges has the same outcomes. */
  lemma PurgeIsInvisible(machines: seq<Machine>, steps: seq<Step>)
    requires IsRun(machines, steps)
    ensures exists shadow: seq<Machine> ::
      IsRun(shadow, WithoutPurges(machines, steps)) && shadow[|shadow| - 1].outcomes == machines[|steps|].outcomes
    ensures forall k :: 0 <= k < |WithoutPurges(machines, steps)| ==> !WithoutPurges(machines, steps)[k].Purge?
  {
    hide Next, Fresh, MachineValid;
    var left := WithoutPurges(machines, steps);
    RunKeeps(machines, steps, 0, 0);
    RunIsChain(machines, steps);
    forall m, s, m', n | Steps(m, s, m') && Reached(m, n)
      ensures exists n' :: Erasure.Answers(Steps, Reached, IsPurge(m, s), s, m', n, n')
    {
      AnyStepIsShadowed(m, n, s, m'.now);
    }
    Erasure.ErasedRun(Steps, Steps, Reached, IsPurge, machines, steps, START);
    var shadow: seq<Machine> :| Erasure.IsShadow(Steps, Reached, START, machines[|steps|], shadow, left);
    RunIsChain(shadow, left);
    assert shadow[|shadow| - 1].outcomes == machines[|steps|].outcomes;
    Erasure.RemainingSatisfy(IsPurge, (s: Step) => !s.Purge?, machines, steps);
  }
}
