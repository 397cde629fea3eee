/**
 A provider attempt as the history of its steps: where each of its columns comes from,
 and exactly which callbacks, results and claims succeed.
 */
module AttemptHistory {
  import opened Options
  import opened Clock
  import opened ProviderAttempts

  // ----- The steps of one attempt -----

  ghost predicate Did(machines: seq<Machine>, steps: seq<Step>, i: nat, id: AttemptId) {
    |machines| == |steps| + 1 && i < |steps|
      && OutcomeOf(machines[i].attempts, steps[i], machines[i + 1].now) == Row(id)
  }

  // A callback of the provider consumed the state.
  ghost predicate ConsumedAt(machines: seq<Machine>, steps: seq<Step>, i: nat, id: AttemptId) {
    Did(machines, steps, i, id) && steps[i].Consume?
  }

  // The callback brought this result, and it was stored.
  ghost predicate RecordedAt(machines: seq<Machine>, steps: seq<Step>, i: nat, id: AttemptId, result: Result) {
    Did(machines, steps, i, id) && steps[i] == Record(id, result)
  }

  ghost predicate CreatedAt(machines: seq<Machine>, steps: seq<Step>, i: nat, id: AttemptId) {
    |machines| == |steps| + 1 && i < |steps| && steps[i].Create? && steps[i].id == id
  }

  ghost predicate WasConsumed(machines: seq<Machine>, steps: seq<Step>, n: nat, id: AttemptId) {
    exists i :: 0 <= i < n && ConsumedAt(machines, steps, i, id)
  }

  ghost predicate WasRecorded(machines: seq<Machine>, steps: seq<Step>, n: nat, id: AttemptId, result: Result) {
    exists i :: 0 <= i < n && RecordedAt(machines, steps, i, id, result)
  }

  ghost predicate HasResult(machines: seq<Machine>, steps: seq<Step>, n: nat, id: AttemptId) {
    exists result :: WasRecorded(machines, steps, n, id, result)
  }

  ghost predicate WasClaimed(machines: seq<Machine>, steps: seq<Step>, n: nat, id: AttemptId) {
    exists i :: 0 <= i < n && ClaimedAt(machines, steps, i, id)
  }

  // The verification of the callback failed: after the state was consumed and before a result was stored.
  ghost predicate FailedAt(machines: seq<Machine>, steps: seq<Step>, i: nat, id: AttemptId) {
    && |machines| == |steps| + 1 && i < |steps| && steps[i] == Fail(id)
    && WasConsumed(machines, steps, i, id) && !HasResult(machines, steps, i, id)
  }

  ghost predicate WasFailed(machines: seq<Machine>, steps: seq<Step>, n: nat, id: AttemptId) {
    exists i :: 0 <= i < n && FailedAt(machines, steps, i, id)
  }

  ghost predicate WasCreated(machines: seq<Machine>, steps: seq<Step>, n: nat, id: AttemptId) {
    exists i :: 0 <= i < n && CreatedAt(machines, steps, i, id)
  }

  // A handoff that claimed nothing presented the attempt's token, while the attempt was open.
  ghost predicate MissedAt(
    machines: seq<Machine>, steps: seq<Step>, i: nat, id: AttemptId, token: Secret, expiresAt: Time)
  {
    && |machines| == |steps| + 1 && i < |steps| && steps[i] == Count(token) && machines[i + 1].now < expiresAt
    && WasCreated(machines, steps, i, id) && !WasClaimed(machines, steps, i, id)
  }

  ghost function Misses(
    machines: seq<Machine>, steps: seq<Step>, n: nat, id: AttemptId, token: Secret, expiresAt: Time): nat
  {
    if n == 0 then 0
    else
      Misses(machines, steps, n - 1, id, token, expiresAt)
      + if MissedAt(machines, steps, n - 1, id, token, expiresAt) then 1 else 0
  }

  // ----- One step -----

  // The row that a statement finds is the only one it can find.
  lemma OneRow(m: Machine, s: Step, now: Time, id: AttemptId)
    requires MachineValid(m)
    ensures OutcomeOf(m.attempts, s, now) == Row(id) <==> Reports(m.attempts, s, now, id)
  {
    hide AllValid, SecretsDrawn;
  }

  // What a step makes of a row that stays.
  function RowAfter(a: Attempt, s: Step, now: Time, did: bool): Attempt {
    a.(stateConsumedAt := if s.Consume? && did then Some(now) else a.stateConsumedAt,
       result := if s.Record? && did then Some(s.result) else a.result,
       sessionClaimedAt := if s.ClaimForLogin? && s.commits && did then Some(now) else a.sessionClaimedAt,
       reauthenticationClaimedAt := if s.ClaimForReauthentication? && s.commits && did then Some(now)
                                    else a.reauthenticationClaimedAt)
  }

  predicate FailsRow(a: Attempt, s: Step, id: AttemptId) {
    s == Fail(id) && a.stateConsumedAt.Some? && a.failedAt.None? && a.result.None?
  }

  predicate MissesRow(a: Attempt, s: Step, now: Time) {
    && s == Count(a.token) && a.sessionClaimedAt.None? && a.reauthenticationClaimedAt.None?
    && a.handoffFailures < 5 && now < a.expiresAt
  }

  lemma RowStep(m: Machine, s: Step, now: Time, id: AttemptId)
    requires MachineValid(m) && Fresh(m, s) && id in m.attempts && id in Next(m, s, now).attempts
    ensures var a := m.attempts[id];
      Next(m, s, now).attempts[id] == RowAfter(a, s, now, OutcomeOf(m.attempts, s, now) == Row(id)).(
        failedAt := if FailsRow(a, s, id) then Some(now) else a.failedAt,
        handoffFailures := a.handoffFailures + if MissesRow(a, s, now) then 1 else 0)
  {
    OneRow(m, s, now, id);
    hide OutcomeOf, AllValid, KeysUnique;
  }

  lemma NewRow(m: Machine, s: Step, now: Time, id: AttemptId)
    requires id !in m.attempts && id in Next(m, s, now).attempts
    ensures s.Create? && s.id == id
    ensures Next(m, s, now).attempts[id] ==
      Attempt(s.provider, s.token, s.state, s.use, now + 10 * MINUTE, None, None, None, 0, None, None)
  {
    hide OutcomeOf;
  }

  // ----- Histories -----

  lemma StepOfRun(machines: seq<Machine>, steps: seq<Step>, n: nat)
    requires IsRun(machines, steps) && 0 < n < |machines|
    ensures MachineValid(machines[n - 1]) && Fresh(machines[n - 1], steps[n - 1])
    ensures machines[n] == Next(machines[n - 1], steps[n - 1], machines[n].now)
    ensures machines[n - 1].now <= machines[n].now
  {
    hide Next, MachineValid, Fresh;
    RunKeeps(machines, steps, n - 1, n - 1);
  }

  // An attempt was created once, and nothing was done to it before.
  lemma {:induction false} NothingBefore(machines: seq<Machine>, steps: seq<Step>, n: nat, id: AttemptId, i: nat)
    requires IsRun(machines, steps) && i < n <= |steps| && id !in machines[n].ids
    ensures !CreatedAt(machines, steps, i, id) && !Did(machines, steps, i, id)
  {
    RunKeeps(machines, steps, i, n);
    StepOfRun(machines, steps, i + 1);
    RunKeeps(machines, steps, i + 1, n);
    hide IsRun;
    OneRow(machines[i], steps[i], machines[i + 1].now, id);
  }

  lemma DrawnOnce(machines: seq<Machine>, steps: seq<Step>, n: nat, id: AttemptId)
    requires IsRun(machines, steps) && 0 < n <= |steps| && CreatedAt(machines, steps, n - 1, id)
    ensures id !in machines[n - 1].ids && id in machines[n].attempts
  {
    StepOfRun(machines, steps, n);
    hide OutcomeOf, MachineValid;
  }

  // The step at which an attempt appears.
  lemma Appears(machines: seq<Machine>, steps: seq<Step>, n: nat, id: AttemptId)
    requires IsRun(machines, steps) && 0 < n < |machines| && id in machines[n].attempts
    requires id !in machines[n - 1].attempts
    ensures CreatedAt(machines, steps, n - 1, id) && id !in machines[n - 1].ids
  {
    StepOfRun(machines, steps, n);
    NewRow(machines[n - 1], steps[n - 1], machines[n].now, id);
    DrawnOnce(machines, steps, n, id);
  }

  // The step that created the attempt gave it its provider, secrets and use, and ten minutes.
  ghost predicate Starts(machines: seq<Machine>, steps: seq<Step>, i: nat, id: AttemptId, a: Attempt) {
    && CreatedAt(machines, steps, i, id)
    && a.provider == steps[i].provider && a.token == steps[i].token && a.state == steps[i].state
    && a.use == steps[i].use
    && a.expiresAt == machines[i + 1].now + 10 * MINUTE
  }

  /** In every run each attempt is as it was created, and expires ten minutes later. */
  lemma {:induction false} AttemptsStart(machines: seq<Machine>, steps: seq<Step>, n: nat, id: AttemptId)
    requires IsRun(machines, steps) && n < |machines| && id in machines[n].attempts
    ensures exists i :: 0 <= i < n && Starts(machines, steps, i, id, machines[n].attempts[id])
  {
    if n > 0 {
      StepOfRun(machines, steps, n);
      hide IsRun, Next, MachineValid;
      if id in machines[n - 1].attempts {
        AttemptsStart(machines, steps, n - 1, id);
        RowStep(machines[n - 1], steps[n - 1], machines[n].now, id);
        var i :| 0 <= i < n - 1 && Starts(machines, steps, i, id, machines[n - 1].attempts[id]);
        assert Starts(machines, steps, i, id, machines[n].attempts[id]);
      } else {
        NewRow(machines[n - 1], steps[n - 1], machines[n].now, id);
        assert Starts(machines, steps, n - 1, id, machines[n].attempts[id]);
      }
    }
  }

  /** In every run an attempt's state is consumed if and only if a callback consumed it. */
  lemma {:induction false} ConsumedByCallback(machines: seq<Machine>, steps: seq<Step>, n: nat, id: AttemptId)
    requires IsRun(machines, steps) && n < |machines| && id in machines[n].attempts
    ensures machines[n].attempts[id].stateConsumedAt.Some? <==> WasConsumed(machines, steps, n, id)
  {
    if n > 0 {
      StepOfRun(machines, steps, n);
      hide Next, MachineValid;
      if id in machines[n - 1].attempts {
        ConsumedByCallback(machines, steps, n - 1, id);
        RowStep(machines[n - 1], steps[n - 1], machines[n].now, id);
        assert steps[n - 1].Consume? ==> (Did(machines, steps, n - 1, id) <==> ConsumedAt(machines, steps, n - 1, id));
      } else {
        Appears(machines, steps, n, id);
        NewRow(machines[n - 1], steps[n - 1], machines[n].now, id);
        forall i | 0 <= i < n - 1 && ConsumedAt(machines, steps, i, id) ensures false {
          NothingBefore(machines, steps, n - 1, id, i);
        }
        NotYetThere(machines, steps, n - 1, id);
      }
    }
  }

  // A statement finds only rows that are there.
  lemma NotYetThere(machines: seq<Machine>, steps: seq<Step>, i: nat, id: AttemptId)
    requires IsRun(machines, steps) && i < |steps| && id !in machines[i].attempts
    ensures !Did(machines, steps, i, id)
  {
    StepOfRun(machines, steps, i + 1);
    OneRow(machines[i], steps[i], machines[i + 1].now, id);
  }

  /**
   In every run an attempt has a result if and only if a callback of it brought exactly this
   result and it was stored; that happens at most once.
   */
  lemma {:induction false} ResultsAreRecorded(
    machines: seq<Machine>, steps: seq<Step>, n: nat, id: AttemptId, result: Result)
    requires IsRun(machines, steps) && n < |machines| && id in machines[n].attempts
    ensures machines[n].attempts[id].result == Some(result) <==> WasRecorded(machines, steps, n, id, result)
  {
    if n > 0 {
      StepOfRun(machines, steps, n);
      hide Next, MachineValid;
      var s := steps[n - 1];
      if id in machines[n - 1].attempts {
        ResultsAreRecorded(machines, steps, n - 1, id, result);
        RowStep(machines[n - 1], s, machines[n].now, id);
        if s.Record? && Did(machines, steps, n - 1, id) {
          RecordsOnce(machines[n - 1], s, machines[n].now, id);
          assert RecordedAt(machines, steps, n - 1, id, s.result);
        }
      } else {
        Appears(machines, steps, n, id);
        NewRow(machines[n - 1], s, machines[n].now, id);
        forall i | 0 <= i < n - 1 && RecordedAt(machines, steps, i, id, result) ensures false {
          NothingBefore(machines, steps, n - 1, id, i);
        }
        NotYetThere(machines, steps, n - 1, id);
      }
    }
  }

  lemma RecordsOnce(m: Machine, s: Step, now: Time, id: AttemptId)
    requires MachineValid(m) && s.Record? && OutcomeOf(m.attempts, s, now) == Row(id)
    ensures s.id == id && id in m.attempts && m.attempts[id].result.None?
  {
    OneRow(m, s, now, id);
  }

  predicate IsClaimed(a: Attempt) { a.sessionClaimedAt.Some? || a.reauthenticationClaimedAt.Some? }

  /** In every run an attempt is claimed if and only if a committed claim took it. */
  lemma {:induction false} ClaimedByClaim(machines: seq<Machine>, steps: seq<Step>, n: nat, id: AttemptId)
    requires IsRun(machines, steps) && n < |machines| && id in machines[n].attempts
    ensures IsClaimed(machines[n].attempts[id]) <==> WasClaimed(machines, steps, n, id)
  {
    if n > 0 {
      StepOfRun(machines, steps, n);
      hide Next, MachineValid;
      if id in machines[n - 1].attempts {
        ClaimedByClaim(machines, steps, n - 1, id);
        RowStep(machines[n - 1], steps[n - 1], machines[n].now, id);
        assert IsClaim(steps[n - 1]) ==> (Did(machines, steps, n - 1, id) <==> ClaimedAt(machines, steps, n - 1, id));
      } else {
        Appears(machines, steps, n, id);
        NewRow(machines[n - 1], steps[n - 1], machines[n].now, id);
        forall i | 0 <= i < n - 1 && ClaimedAt(machines, steps, i, id) ensures false {
          NothingBefore(machines, steps, n - 1, id, i);
        }
        NotYetThere(machines, steps, n - 1, id);
      }
    }
  }

  /** In every run an attempt failed if and only if its callback failed after it consumed the state. */
  lemma {:induction false} FailedByCallback(machines: seq<Machine>, steps: seq<Step>, n: nat, id: AttemptId)
    requires IsRun(machines, steps) && n < |machines| && id in machines[n].attempts
    ensures machines[n].attempts[id].failedAt.Some? <==> WasFailed(machines, steps, n, id)
  {
    if n > 0 {
      StepOfRun(machines, steps, n);
      hide Next, MachineValid;
      if id in machines[n - 1].attempts {
        FailedByCallback(machines, steps, n - 1, id);
        ConsumedByCallback(machines, steps, n - 1, id);
        ResultIsKnown(machines, steps, n - 1, id);
        RowStep(machines[n - 1], steps[n - 1], machines[n].now, id);
        hide WasConsumed, HasResult, IsRun;
        assert steps[n - 1] == Fail(id) && machines[n].attempts[id].failedAt.Some?
          && machines[n - 1].attempts[id].failedAt.None?
          ==> FailedAt(machines, steps, n - 1, id);
      } else {
        Appears(machines, steps, n, id);
        NewRow(machines[n - 1], steps[n - 1], machines[n].now, id);
        forall i | 0 <= i < n - 1 && FailedAt(machines, steps, i, id) ensures false {
          var j :| 0 <= j < i && ConsumedAt(machines, steps, j, id);
          NothingBefore(machines, steps, n - 1, id, j);
        }
      }
    }
  }

  lemma ResultIsKnown(machines: seq<Machine>, steps: seq<Step>, n: nat, id: AttemptId)
    requires IsRun(machines, steps) && n < |machines| && id in machines[n].attempts
    ensures machines[n].attempts[id].result.Some? <==> HasResult(machines, steps, n, id)
    ensures forall result :: machines[n].attempts[id].result == Some(result) <==>
      WasRecorded(machines, steps, n, id, result)
  {
    hide IsRun, WasRecorded;
    forall result ensures machines[n].attempts[id].result == Some(result) <==>
      WasRecorded(machines, steps, n, id, result) {
      ResultsAreRecorded(machines, steps, n, id, result);
    }
    if machines[n].attempts[id].result.Some? {
      assert WasRecorded(machines, steps, n, id, machines[n].attempts[id].result.value);
    }
  }

  lemma CreatedOnce(machines: seq<Machine>, steps: seq<Step>, i: nat, j: nat, id: AttemptId)
    requires IsRun(machines, steps) && CreatedAt(machines, steps, i, id) && CreatedAt(machines, steps, j, id)
    ensures i == j
  {
    if i < j {
      DrawnOnce(machines, steps, j + 1, id);
      CreatedIsDrawn(machines, steps, i, j, id);
    }
    if j < i {
      DrawnOnce(machines, steps, i + 1, id);
      CreatedIsDrawn(machines, steps, j, i, id);
    }
  }

  lemma CreatedIsDrawn(machines: seq<Machine>, steps: seq<Step>, i: nat, j: nat, id: AttemptId)
    requires IsRun(machines, steps) && i < j < |machines| && CreatedAt(machines, steps, i, id)
    ensures id in machines[j].ids
  {
    StepOfRun(machines, steps, i + 1);
    hide OutcomeOf;
    assert id in machines[i + 1].ids;
    hide Next;
    RunKeeps(machines, steps, i + 1, j);
  }

  lemma {:induction false} NoMisses(
    machines: seq<Machine>, steps: seq<Step>, n: nat, id: AttemptId, token: Secret, expiresAt: Time)
    requires IsRun(machines, steps) && n <= |steps| && id !in machines[n].ids
    ensures Misses(machines, steps, n, id, token, expiresAt) == 0
  {
    if n > 0 {
      StepOfRun(machines, steps, n);
      hide OutcomeOf, MachineValid;
      assert id !in machines[n - 1].ids;
      hide Next;
      NoMisses(machines, steps, n - 1, id, token, expiresAt);
      forall i | 0 <= i < n - 1 && CreatedAt(machines, steps, i, id) ensures false {
        CreatedIsDrawn(machines, steps, i, n, id);
      }
    }
  }

  /** In every run an attempt's failures are the handoffs that missed it while it was open, up to five. */
  lemma {:induction false} MissesAreCounted(machines: seq<Machine>, steps: seq<Step>, n: nat, id: AttemptId)
    requires IsRun(machines, steps) && n < |machines| && id in machines[n].attempts
    ensures var a := machines[n].attempts[id];
      a.handoffFailures == Min(5, Misses(machines, steps, n, id, a.token, a.expiresAt))
  {
    if n > 0 {
      StepOfRun(machines, steps, n);
      hide Next, MachineValid;
      var a := machines[n].attempts[id];
      if id in machines[n - 1].attempts {
        MissesAreCounted(machines, steps, n - 1, id);
        ClaimedByClaim(machines, steps, n - 1, id);
        AttemptsStart(machines, steps, n - 1, id);
        assert WasCreated(machines, steps, n - 1, id);
        AttemptsAreConsistent(machines, steps, n - 1, id);
        RowStep(machines[n - 1], steps[n - 1], machines[n].now, id);
        hide IsRun, WasClaimed, WasCreated;
      } else {
        Appears(machines, steps, n, id);
        NewRow(machines[n - 1], steps[n - 1], machines[n].now, id);
        NoMisses(machines, steps, n - 1, id, a.token, a.expiresAt);
      }
    }
  }

  // ----- What succeeds -----

  // The attempt was created before, less than ten minutes ago.
  ghost predicate Running(machines: seq<Machine>, steps: seq<Step>, k: nat, i: nat, id: AttemptId) {
    k < i < |machines| - 1 && CreatedAt(machines, steps, k, id)
      && machines[i + 1].now < machines[k + 1].now + 10 * MINUTE
  }

  lemma {:induction false} StaysUntilExpiry(machines: seq<Machine>, steps: seq<Step>, k: nat, n: nat, id: AttemptId)
    requires IsRun(machines, steps) && k < n < |machines| && CreatedAt(machines, steps, k, id)
    requires machines[n].now < machines[k + 1].now + 10 * MINUTE
    ensures id in machines[n].attempts && Starts(machines, steps, k, id, machines[n].attempts[id])
  {
    StepOfRun(machines, steps, n);
    if k == n - 1 {
      DrawnOnce(machines, steps, n, id);
      hide Next, OutcomeOf;
    } else {
      StaysUntilExpiry(machines, steps, k, n - 1, id);
      hide IsRun, OutcomeOf, MachineValid;
      StaysOneStep(machines[n - 1], steps[n - 1], machines[n].now, id);
      hide Next;
      RowStep(machines[n - 1], steps[n - 1], machines[n].now, id);
    }
    AttemptsStartHere(machines, steps, k, n, id);
  }

  lemma StaysOneStep(m: Machine, s: Step, now: Time, id: AttemptId)
    requires id in m.attempts && now < m.attempts[id].expiresAt
    ensures id in Next(m, s, now).attempts
  {
    hide OutcomeOf;
  }

  // The creating step of an attempt that is there is the one that started it.
  lemma AttemptsStartHere(machines: seq<Machine>, steps: seq<Step>, k: nat, n: nat, id: AttemptId)
    requires IsRun(machines, steps) && k < n < |machines| && CreatedAt(machines, steps, k, id)
    requires id in machines[n].attempts
    ensures Starts(machines, steps, k, id, machines[n].attempts[id])
  {
    AttemptsStart(machines, steps, n, id);
    var i :| 0 <= i < n && Starts(machines, steps, i, id, machines[n].attempts[id]);
    CreatedOnce(machines, steps, i, k, id);
  }

  // A row that a statement reports is there, and was created by some step.
  lemma DidToRow(machines: seq<Machine>, steps: seq<Step>, i: nat, id: AttemptId)
    requires IsRun(machines, steps) && Did(machines, steps, i, id)
    ensures id in machines[i].attempts && Reports(machines[i].attempts, steps[i], machines[i + 1].now, id)
    ensures exists k :: 0 <= k < i && Starts(machines, steps, k, id, machines[i].attempts[id])
  {
    StepOfRun(machines, steps, i + 1);
    OneRow(machines[i], steps[i], machines[i + 1].now, id);
    hide Next, MachineValid;
    AttemptsStart(machines, steps, i, id);
  }

  // A row that fits a statement is the one that it reports.
  lemma RowIsDone(machines: seq<Machine>, steps: seq<Step>, i: nat, id: AttemptId)
    requires IsRun(machines, steps) && i < |steps| && Reports(machines[i].attempts, steps[i], machines[i + 1].now, id)
    ensures Did(machines, steps, i, id)
  {
    StepOfRun(machines, steps, i + 1);
    OneRow(machines[i], steps[i], machines[i + 1].now, id);
  }

  lemma RunningIsThere(machines: seq<Machine>, steps: seq<Step>, k: nat, i: nat, id: AttemptId)
    requires IsRun(machines, steps) && Running(machines, steps, k, i, id)
    ensures id in machines[i].attempts && Starts(machines, steps, k, id, machines[i].attempts[id])
  {
    StepOfRun(machines, steps, i + 1);
    StaysUntilExpiry(machines, steps, k, i, id);
  }

  // The callback is of the provider and has the state that the attempt was created with.
  predicate FitsState(steps: seq<Step>, k: nat, i: nat) {
    && k < |steps| && i < |steps| && steps[k].Create? && steps[i].Consume?
    && steps[k].provider == steps[i].provider && steps[k].state == steps[i].state
  }

  /**
   A callback consumes the state of an attempt exactly when it is of the attempt's provider, in its ten minutes, and
   the first.
   */
  lemma ConsumeSucceeds(machines: seq<Machine>, steps: seq<Step>, i: nat, id: AttemptId)
    requires IsRun(machines, steps) && i < |steps| && steps[i].Consume?
    ensures ConsumedAt(machines, steps, i, id) <==>
      && !WasConsumed(machines, steps, i, id)
      && exists k: nat :: Running(machines, steps, k, i, id) && FitsState(steps, k, i)
  {
    hide IsRun, WasConsumed;
    if ConsumedAt(machines, steps, i, id) {
      DidToRow(machines, steps, i, id);
      var k: nat :| k < i && Starts(machines, steps, k, id, machines[i].attempts[id]);
      assert Running(machines, steps, k, i, id);
      ConsumedByCallback(machines, steps, i, id);
    }
    if k: nat :| Running(machines, steps, k, i, id) && FitsState(steps, k, i) {
      RunningIsThere(machines, steps, k, i, id);
      ConsumedByCallback(machines, steps, i, id);
      if !WasConsumed(machines, steps, i, id) { RowIsDone(machines, steps, i, id); }
    }
  }

  /** A result is stored exactly for a consumed attempt in its ten minutes, whose callback did not fail, and once. */
  lemma RecordSucceeds(machines: seq<Machine>, steps: seq<Step>, i: nat, id: AttemptId, result: Result)
    requires IsRun(machines, steps) && i < |steps| && steps[i] == Record(id, result)
    ensures RecordedAt(machines, steps, i, id, result) <==>
      && WasConsumed(machines, steps, i, id) && !WasFailed(machines, steps, i, id) && !HasResult(machines, steps, i, id)
      && exists k: nat :: Running(machines, steps, k, i, id)
  {
    hide IsRun, WasConsumed, WasFailed, HasResult, WasRecorded;
    if RecordedAt(machines, steps, i, id, result) {
      DidToRow(machines, steps, i, id);
      var k: nat :| k < i && Starts(machines, steps, k, id, machines[i].attempts[id]);
      assert Running(machines, steps, k, i, id);
      RowIsHistory(machines, steps, i, id);
    }
    if k: nat :| Running(machines, steps, k, i, id) {
      RunningIsThere(machines, steps, k, i, id);
      RowIsHistory(machines, steps, i, id);
      if WasConsumed(machines, steps, i, id) && !WasFailed(machines, steps, i, id)
        && !HasResult(machines, steps, i, id) {
        RowIsDone(machines, steps, i, id);
      }
    }
  }

  lemma RowIsHistory(machines: seq<Machine>, steps: seq<Step>, n: nat, id: AttemptId)
    requires IsRun(machines, steps) && n < |machines| && id in machines[n].attempts
    ensures var a := machines[n].attempts[id];
      && (a.stateConsumedAt.Some? <==> WasConsumed(machines, steps, n, id))
      && (a.failedAt.Some? <==> WasFailed(machines, steps, n, id))
      && (a.result.Some? <==> HasResult(machines, steps, n, id))
      && (forall result :: a.result == Some(result) <==> WasRecorded(machines, steps, n, id, result))
      && (IsClaimed(a) <==> WasClaimed(machines, steps, n, id))
      && a.handoffFailures == Min(5, Misses(machines, steps, n, id, a.token, a.expiresAt))
  {
    hide IsRun, WasConsumed, WasFailed, HasResult, WasRecorded, WasClaimed;
    ConsumedByCallback(machines, steps, n, id);
    FailedByCallback(machines, steps, n, id);
    ResultIsKnown(machines, steps, n, id);
    ClaimedByClaim(machines, steps, n, id);
    MissesAreCounted(machines, steps, n, id);
  }

  // The use that a claim is for.
  function UseOf(s: Step): Use
    requires s.ClaimForLogin? || s.ClaimForReauthentication?
  {
    if s.ClaimForLogin? then Login else Reauthenticate(s.subject, s.session)
  }

  // The attempt was created for the claim's token and use, and has a result with its handoff code.
  ghost predicate Offers(machines: seq<Machine>, steps: seq<Step>, k: nat, i: nat, id: AttemptId)
    requires i < |steps| && (steps[i].ClaimForLogin? || steps[i].ClaimForReauthentication?)
  {
    && Running(machines, steps, k, i, id) && k < |steps| && steps[k].Create?
    && steps[k].token == steps[i].token && steps[k].use == UseOf(steps[i])
    && Misses(machines, steps, i, id, steps[k].token, machines[k + 1].now + 10 * MINUTE) < 5
    && exists result :: WasRecorded(machines, steps, i, id, result) && result.handoff == steps[i].handoff
  }

  /**
   A claim succeeds exactly for an attempt that was created less than ten minutes ago for its token
   and use, whose stored result has its handoff code, that no claim took before and that fewer than
   five handoffs missed.
   */
  lemma ClaimSucceeds(machines: seq<Machine>, steps: seq<Step>, i: nat, id: AttemptId)
    requires IsRun(machines, steps) && i < |steps| && (steps[i].ClaimForLogin? || steps[i].ClaimForReauthentication?)
    ensures Did(machines, steps, i, id) <==>
      !WasClaimed(machines, steps, i, id) && exists k: nat :: Offers(machines, steps, k, i, id)
  {
    hide IsRun, WasConsumed, WasFailed, HasResult, WasRecorded, WasClaimed, Misses;
    if Did(machines, steps, i, id) {
      DidToRow(machines, steps, i, id);
      var k: nat :| k < i && Starts(machines, steps, k, id, machines[i].attempts[id]);
      assert Running(machines, steps, k, i, id);
      RowIsHistory(machines, steps, i, id);
      ClaimKeepsUse(machines, steps, i, id);
      assert WasRecorded(machines, steps, i, id, machines[i].attempts[id].result.value);
      assert Offers(machines, steps, k, i, id);
    }
    if k: nat :| Offers(machines, steps, k, i, id) {
      RunningIsThere(machines, steps, k, i, id);
      RowIsHistory(machines, steps, i, id);
      if !WasClaimed(machines, steps, i, id) { RowIsDone(machines, steps, i, id); }
    }
  }

  lemma ClaimKeepsUse(machines: seq<Machine>, steps: seq<Step>, i: nat, id: AttemptId)
    requires IsRun(machines, steps) && i < |machines| && id in machines[i].attempts
    ensures machines[i].attempts[id].sessionClaimedAt.Some? ==> machines[i].attempts[id].use.Login?
    ensures machines[i].attempts[id].reauthenticationClaimedAt.Some? ==> machines[i].attempts[id].use.Reauthenticate?
  {
    hide IsRun;
    AttemptsAreConsistent(machines, steps, i, id);
  }
}
