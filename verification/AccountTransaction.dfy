/**
 The transaction object of the account repository: its statements run on the store,
 its re-authentication fields decide at COMMIT, and a refused COMMIT rolls back.
 */
module AccountTransaction {
  import opened Options
  import opened Clock
  import opened Schema
  import opened Reauthentication
  import opened Transactions
  import opened Database

  // A deadline that is None is the zero time of the source.
  function Lower(current: Option<Time>, deadline: Option<Time>): Option<Time> {
    if current.None? || deadline.None? || deadline.value < current.value then deadline else current
  }

  function LowerAll(current: Option<Time>, deadlines: seq<Option<Time>>): Option<Time>
    decreases |deadlines|
  {
    if deadlines == [] then current else LowerAll(Lower(current, deadlines[0]), deadlines[1..])
  }

  /**
   What COMMIT does: the deferred deadline check, and the proof stamp of the session that the transaction requested.
   */
  predicate MayCommit(
    sessions: map<SessionId, Session>, session: Option<SessionId>, deadline: Option<Time>,
    requested: Option<SessionId>, c: CommitClock)
  {
    deadline.None?
      || (session.Some? && session.value in sessions && CommitsBefore(c, deadline.value, requested == session))
  }

  function Committed(
    db: Tables, session: Option<SessionId>, deadline: Option<Time>, requested: Option<SessionId>, c: CommitClock
  ): Tables
  {
    if deadline.Some? && session.Some?
      && requested == session then Statements.StampProof(db, session.value, c.stampedAt) else db
  }

  class Transaction {
    const store: Store
    const snapshot: Tables
    var session: Option<SessionId>
    var subject: Option<Subject>
    var deadline: Option<Time>
    // The setting flowspace.reauthentication_session.
    var requested: Option<SessionId>

    constructor (db: Store)
      ensures store == db && snapshot == db.Contents()
      ensures session.None? && subject.None? && deadline.None? && requested.None?
    {
      store, snapshot := db, db.Contents();
      session, subject, deadline, requested := None, None, None, None;
    }

    /** Locks the account and the session, then reads the wall clock. */
    method LockSessionForReauthentication(
      s: Subject, id: SessionId, lockAt: Time, observedAt: Time) returns (w: Option<Window>)
      modifies this`session, this`subject
      ensures w.Some? == SessionLocked(store.Contents(), s, id, lockAt, observedAt)
      ensures w.Some? ==> w.value == WindowOf(store.sessions[id]) && session == Some(id) && subject == Some(s)
      ensures w.None? ==> session == old(session) && subject == old(subject)
    {
      if !SessionActive(store.Contents(), s, id, lockAt) || !Live(store.sessions[id], observedAt) {
        return None;
      }
      session, subject := Some(id), Some(s);
      w := Some(Window(store.sessions[id].provenAt, store.sessions[id].idleExpiresAt,
        store.sessions[id].absoluteExpiresAt));
    }

    method ReauthenticateSession(s: Subject, id: SessionId) returns (accepted: bool)
      modifies this`requested
      ensures accepted == (subject == Some(s) && session == Some(id))
      ensures requested == if accepted then Some(id) else old(requested)
    {
      accepted := subject == Some(s) && session == Some(id);
      if accepted {
        requested := Some(id);
      }
    }

    method RequireCommitBefore(end: Option<Time>)
      modifies this`deadline
      ensures deadline == Lower(old(deadline), end)
    {
      if deadline.None? || (end.None? || end.value < deadline.value) {
        deadline := end;
      }
    }

    /** openWindow: opens a closed window at COMMIT, keeps an open one, and requires COMMIT before the session ends. */
    method OpenWindow(s: Subject, id: SessionId, lockAt: Time, observedAt: Time) returns (end: Option<Time>)
      modifies this
      ensures end.Some? == SessionLocked(store.Contents(), s, id, lockAt, observedAt)
      ensures end.Some? ==>
        var w := WindowOf(store.sessions[id]);
        && end.value == (if w.idleExpiresAt < w.absoluteExpiresAt then w.idleExpiresAt else w.absoluteExpiresAt)
        && end.value == SessionDeadline(w) && session == Some(id) && deadline == Lower(old(deadline), end)
        && requested == if IsOpen(w, observedAt) then old(requested) else Some(id)
      ensures end.None? ==> deadline == old(deadline) && requested == old(requested) && session == old(session)
    {
      var w := LockSessionForReauthentication(s, id, lockAt, observedAt);
      if w.None? {
        return None;
      }
      if !IsOpen(w.value, observedAt) {
        var accepted := ReauthenticateSession(s, id);
        assert accepted;
      }
      end := Some(SessionDeadline(w.value));
      RequireCommitBefore(end);
    }

    method Commit(c: CommitClock) returns (committed: bool)
      modifies store
      ensures committed == MayCommit(old(store.sessions), session, deadline, requested, c)
      ensures store.Contents() == if committed
        then Committed(old(store.Contents()), session, deadline, requested, c) else snapshot
    {
      if deadline.Some? {
        // The UPDATE that queues the deferred triggers must find the session.
        if session.None? || session.value !in store.sessions {
          store.Rollback(snapshot);
          return false;
        }
        var stamps := requested == session;
        if c.checkedAt >= deadline.value {
          store.Rollback(snapshot);
          return false;
        }
        if stamps {
          store.StampProof(session.value, c.stampedAt);
          if c.recheckedAt >= deadline.value {
            store.Rollback(snapshot);
            return false;
          }
        }
      }
      committed := true;
    }
  }

  datatype Admission = Admitted | ReauthenticationRequired | NotAuthenticated

  /** Guards the caller's transaction at admission and before commit. */
  method RequireReauthentication(
    t: Transaction, s: Subject, id: SessionId, lockAt: Time, observedAt: Time) returns (a: Admission)
    modifies t
    ensures a == NotAuthenticated <==> !SessionLocked(t.store.Contents(), s, id, lockAt, observedAt)
    ensures a == Admitted <==>
      SessionLocked(t.store.Contents(), s, id, lockAt, observedAt) && IsOpen(WindowOf(t.store.sessions[id]), observedAt)
    ensures a == Admitted ==>
      t.session == Some(id) && t.deadline == Lower(old(t.deadline), ExpiresAt(WindowOf(t.store.sessions[id])))
    ensures a != Admitted ==> t.deadline == old(t.deadline)
    ensures t.requested == old(t.requested)
  {
    var w := t.LockSessionForReauthentication(s, id, lockAt, observedAt);
    if w.None? {
      return NotAuthenticated;
    }
    if !IsOpen(w.value, observedAt) {
      return ReauthenticationRequired;
    }
    t.RequireCommitBefore(ExpiresAt(w.value));
    a := Admitted;
  }

  // ----- Deadlines -----

  // The minimum of the deadlines that are set.
  function Earliest(a: Option<Time>, b: Option<Time>): Option<Time> {
    match (a, b)
    case (Some(x), Some(y)) => Some(Min(x, y))
    case (Some(_), None) => a
    case (None, _) => b
  }

  /** One call keeps the earliest of all deadlines exactly unless it passes the zero time over a deadline. */
  lemma LowerKeepsEarliest(current: Option<Time>, deadline: Option<Time>)
    ensures Lower(current, deadline) == Earliest(current, deadline) <==> (current.None? || deadline.Some?)
  {
  }

  function EarliestOf(current: Option<Time>, deadlines: seq<Option<Time>>): Option<Time>
    decreases |deadlines|
  {
    if deadlines == [] then current else EarliestOf(Earliest(current, deadlines[0]), deadlines[1..])
  }

  predicate NoZeroAfter(current: Option<Time>, deadlines: seq<Option<Time>>)
    decreases |deadlines|
  {
    deadlines == [] || ((current.None? || deadlines[0].Some?) && NoZeroAfter(deadlines[0], deadlines[1..]))
  }

  predicate AlwaysEarliest(current: Option<Time>, deadlines: seq<Option<Time>>) {
    forall k :: 0 <= k <= |deadlines| ==> LowerAll(current, deadlines[..k]) == EarliestOf(current, deadlines[..k])
  }

  /**
   Over any sequence of calls the deadline is the earliest so far after every call, if and only if no call passes the
   zero time after a set one.
   */
  lemma {:induction false} DeadlineIsEarliest(current: Option<Time>, deadlines: seq<Option<Time>>)
    ensures AlwaysEarliest(current, deadlines) <==> NoZeroAfter(current, deadlines)
    decreases |deadlines|
  {
    if deadlines != [] {
      var next, rest := Lower(current, deadlines[0]), deadlines[1..];
      LowerKeepsEarliest(current, deadlines[0]);
      FirstStep(current, deadlines);
      if next == Earliest(current, deadlines[0]) {
        DeadlineIsEarliest(next, rest);
        SetOrNot(next, deadlines[0], rest);
      }
    }
  }

  lemma OneDeadline(current: Option<Time>, one: seq<Option<Time>>)
    requires |one| == 1
    ensures LowerAll(current, one) == Lower(current, one[0]) && EarliestOf(current, one) == Earliest(current, one[0])
  {
    assert one[1..] == [];
    hide Earliest, Lower;
    assert EarliestOf(Earliest(current, one[0]), []) == Earliest(current, one[0]);
    assert LowerAll(Lower(current, one[0]), []) == Lower(current, one[0]);
  }

  lemma FirstStep(current: Option<Time>, deadlines: seq<Option<Time>>)
    requires deadlines != []
    ensures var next, other, rest := Lower(current, deadlines[0]), Earliest(current, deadlines[0]), deadlines[1..];
      AlwaysEarliest(current, deadlines) <==> next == other && AlwaysEarliest(next, rest)
  {
    var next, rest := Lower(current, deadlines[0]), deadlines[1..];
    forall k | 1 <= k <= |deadlines| ensures deadlines[..k] == [deadlines[0]] + rest[..k - 1] {
    }
    assert deadlines[..1] == [deadlines[0]] && deadlines[..0] == [];
    OneDeadline(current, deadlines[..1]);
    if AlwaysEarliest(current, deadlines) {
      forall k | 0 <= k <= |rest| ensures LowerAll(next, rest[..k]) == EarliestOf(next, rest[..k]) {
        assert deadlines[..k + 1][1..] == rest[..k];
        assert LowerAll(current, deadlines[..k + 1]) == EarliestOf(current, deadlines[..k + 1]);
      }
    }
    if next == Earliest(current, deadlines[0]) && AlwaysEarliest(next, rest) {
      forall k | 0 <= k <= |deadlines| ensures LowerAll(current, deadlines[..k]) ==
        EarliestOf(current, deadlines[..k]) {
        if k > 0 { assert deadlines[..k][1..] == rest[..k - 1]; }
      }
    }
  }

  // Only whether a deadline is set matters to NoZeroAfter.
  lemma SetOrNot(a: Option<Time>, b: Option<Time>, rest: seq<Option<Time>>)
    requires a.Some? == b.Some?
    ensures NoZeroAfter(a, rest) == NoZeroAfter(b, rest)
  {
  }

  /** The zero time lifts every deadline that was required before. */
  lemma ZeroLiftsDeadline(current: Time)
    ensures Lower(Some(current), None) == None
    ensures forall sessions, session, requested, c ::
      MayCommit(sessions, session, Lower(Some(current), None), requested, c)
  {
  }

  // ----- Guarded commits -----

  lemma {:induction false} SetDeadlinesOnlyFall(current: Time, deadlines: seq<Option<Time>>)
    requires forall k :: 0 <= k < |deadlines| ==> deadlines[k].Some?
    ensures LowerAll(Some(current), deadlines).Some? && LowerAll(Some(current), deadlines).value <= current
    decreases |deadlines|
  {
    if deadlines != [] {
      SetDeadlinesOnlyFall(Lower(Some(current), deadlines[0]).value, deadlines[1..]);
    }
  }

  /**
   A transaction that only RequireReauthentication guards commits exactly when its session is there
   and its deadline check runs in the ten minutes after the proof and before both expiries.
   */
  lemma GuardedCommits(w: Window, sessions: map<SessionId, Session>, id: SessionId, c: CommitClock)
    requires w.provenAt.Some?
    ensures MayCommit(sessions, Some(id), Lower(None, ExpiresAt(w)), None, c) <==>
      && id in sessions && c.checkedAt < w.provenAt.value + 10 * MINUTE
      && c.checkedAt < w.idleExpiresAt && c.checkedAt < w.absoluteExpiresAt
  {
  }

  /**
   A commit that RequireReauthentication admitted runs its deadline check at a time in
   the ten minutes after the proof, and before both expiries of the session, whatever
   other deadlines the transaction requires.
   */
  lemma GuardedCommitIsTimely(w: Window, observedAt: Time, later: seq<Option<Time>>, sessions: map<SessionId, Session>,
      session: Option<SessionId>, requested: Option<SessionId>, c: CommitClock)
    requires IsOpen(w, observedAt) && observedAt <= c.checkedAt
    requires forall k :: 0 <= k < |later| ==> later[k].Some?
    requires MayCommit(sessions, session, LowerAll(ExpiresAt(w), later), requested, c)
    ensures w.provenAt.Some? && w.provenAt.value <= c.checkedAt < w.provenAt.value + 10 * MINUTE
    ensures c.checkedAt < w.idleExpiresAt && c.checkedAt < w.absoluteExpiresAt
  {
    SetDeadlinesOnlyFall(ExpiresAt(w).value, later);
  }
}
