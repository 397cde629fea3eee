/**
 The password-change notices: a queue table that the email workers empty. Each worker
 locks the next due row, sends, and deletes or defers the row in the same transaction.
 */
module NoticeDelivery {
  import opened Options
  import opened Clock
  import opened Schema
  import opened Consistency
  import opened Database
  import opened EmailWorker

  type WorkerId = int

  // ----- Statements -----

  const RETRY := 30 * SECOND

  predicate NoticeDue(n: Notice, now: Time) { n.nextAttemptAt <= now }

  // ORDER BY next_attempt_at, created_at
  predicate NoticeNoLater(m: Notice, n: Notice) {
    m.nextAttemptAt < n.nextAttemptAt || (m.nextAttemptAt == n.nextAttemptAt && m.createdAt <= n.createdAt)
  }

  /** The notice that the locking read picks; SKIP LOCKED passes over the rows in `locked`. */
  predicate IsNextNotice(notices: Notices, locked: set<NoticeId>, n: NoticeId, now: Time) {
    && n in notices && n !in locked && NoticeDue(notices[n], now)
    && forall m :: m in notices && m !in locked && NoticeDue(notices[m], now) ==> NoticeNoLater(notices[n], notices[m])
  }

  function DeferNotice(notices: Notices, n: NoticeId, now: Time): Notices {
    if n in notices
    then notices[n := notices[n].(attemptCount := notices[n].attemptCount + 1, nextAttemptAt := now + RETRY)]
    else notices
  }

  // ----- One delivery -----

  datatype NoticeMail = NoticeMail(notice: NoticeId, address: Email)

  lemma {:induction false} NextExists(
    notices: Notices, skipped: set<NoticeId>, ids: set<NoticeId>, d: NoticeId, now: Time)
    requires d in notices && NoticeDue(notices[d], now) && d !in skipped
    requires ids == set n | n in notices && n !in skipped && NoticeDue(notices[n], now)
    ensures exists n :: IsNextNotice(notices, skipped, n, now)
    decreases ids
  {
    var rest := ids - {d};
    if c :| c in rest {
      NextExists(notices, skipped + {d}, rest, c, now);
      var n :| IsNextNotice(notices, skipped + {d}, n, now);
      if NoticeNoLater(notices[d], notices[n]) {
        assert IsNextNotice(notices, skipped, d, now);
      } else {
        assert IsNextNotice(notices, skipped, n, now);
      }
    } else {
      forall m | m in notices && m !in skipped && NoticeDue(notices[m], now) ensures m == d {
        assert m in ids && m !in rest;
      }
      assert IsNextNotice(notices, skipped, d, now);
    }
  }

  class NoticeWorker {
    const store: Store
    // What the mail server took.
    var mail: seq<NoticeMail>

    constructor (db: Store)
      ensures store == db && mail == []
    {
      store, mail := db, [];
    }

    /**
     Sends the next due notice that no other worker holds, and deletes it; a failed send defers it; a failed COMMIT
     changes nothing.
     */
    method WithNextPasswordChangeNotice(
      locked: set<NoticeId>, lockAt: Time, outcome: CallOutcome, deferAt: Time, commit: CallOutcome)
      returns (found: bool, ok: bool)
      modifies this`mail, store`notices
      ensures !found ==>
        ok && store.notices == old(store.notices) && mail == old(mail)
      ensures found <==> exists n ::
        n in old(store.notices) && n !in locked && old(store.notices)[n].nextAttemptAt <= lockAt
      ensures found ==> ok == (outcome.Done? && commit.Done?)
      ensures found ==> exists n ::
        && IsNextNotice(old(store.notices), locked, n, lockAt)
        && mail == (if outcome.NotDone? then old(mail) else old(mail) + [NoticeMail(n, old(store.notices)[n].email)])
        && store.notices ==
            if commit.NotDone? then old(store.notices)
            else if outcome.Done? then old(store.notices) - {n}
            else DeferNotice(old(store.notices), n, deferAt)
    {
      var snapshot := store.notices;
      ok := true;
      if d :| d in store.notices && d !in locked && NoticeDue(store.notices[d], lockAt) {
        ghost var due := set n | n in store.notices && n !in locked && NoticeDue(store.notices[n], lockAt);
        NextExists(store.notices, locked, due, d, lockAt);
      }
      if n :| n in store.notices && IsNextNotice(store.notices, locked, n, lockAt) {
        found := true;
        if !outcome.NotDone? {
          mail := mail + [NoticeMail(n, store.notices[n].email)];
        }
        if outcome.Done? {
          store.notices := store.notices - {n};
        } else {
          store.notices := store.notices[n :=
            store.notices[n].(attemptCount := store.notices[n].attemptCount + 1,
              nextAttemptAt := deferAt + 30 * SECOND)];
        }
        if commit.NotDone? {
          store.notices := snapshot;
        }
        ok := outcome.Done? && commit.Done?;
      } else {
        found := false;
      }
    }
  }

  // ----- Runs -----

  // An open transaction: the row it locked and, once the send was tried, whether the mail server said that it took
  // the email.
  datatype Attempt = Attempt(notice: NoticeId, address: Email, heard: Option<bool>)

  datatype Queue = Queue(notices: Notices, now: Time, queued: map<NoticeId, Email>, open: map<WorkerId, Attempt>,
    mail: seq<NoticeMail>)

  datatype Step =
    | Tick(to: Time)
    // A committed password reset.
    | Enqueue(notice: NoticeId, subject: Subject, email: Email, at: Time)
    | Lock(worker: WorkerId, notice: NoticeId, at: Time)
    | Send(worker: WorkerId, outcome: CallOutcome)
    | Commit(worker: WorkerId, at: Time)
    // A crash, or a COMMIT that fails.
    | Abort(worker: WorkerId)

  predicate Init(q: Queue) { q == Queue(map[], q.now, map[], map[], []) }

  function LockedIn(open: map<WorkerId, Attempt>): set<NoticeId> {
    set w | w in open :: open[w].notice
  }

  predicate Enabled(q: Queue, s: Step) {
    match s
    case Tick(to) => q.now <= to
    case Enqueue(n, _, _, at) => n !in q.queued && at <= q.now
    case Lock(w, n, at) => w !in q.open && IsNextNotice(q.notices, LockedIn(q.open), n, at) && at <= q.now
    case Send(w, _) => w in q.open && q.open[w].heard.None?
    case Commit(w, at) => w in q.open && q.open[w].heard.Some? && at <= q.now
    case Abort(w) => w in q.open
  }

  function Apply(q: Queue, s: Step): Queue
    requires Enabled(q, s)
  {
    match s
    case Tick(to) => q.(now := to)
    case Enqueue(n, subject, email, at) =>
      q.(notices := q.notices[n := Notice(subject, email, at, at, 0)], queued := q.queued[n := email])
    case Lock(w, n, _) => q.(open := q.open[w := Attempt(n, q.notices[n].email, None)])
    case Send(w, outcome) =>
      var a := q.open[w];
      q.(open := q.open[w := a.(heard := Some(outcome.Done?))],
         mail := if outcome.NotDone? then q.mail else q.mail + [NoticeMail(a.notice, a.address)])
    case Commit(w, at) =>
      var n := q.open[w].notice;
      q.(notices := if q.open[w].heard.value
        then q.notices - {n} else DeferNotice(q.notices, n, at), open := q.open - {w})
    case Abort(w) => q.(open := q.open - {w})
  }

  ghost predicate IsRun(queues: seq<Queue>, steps: seq<Step>) {
    && |queues| == |steps| + 1 && Init(queues[0])
    && forall i :: 0 <= i < |steps| ==> Enabled(queues[i], steps[i]) && queues[i + 1] == Apply(queues[i], steps[i])
  }

  function MailsOf(mail: seq<NoticeMail>, n: NoticeId): nat {
    if mail == [] then 0 else MailsOf(mail[..|mail| - 1], n) + if mail[|mail| - 1].notice == n then 1 else 0
  }

  // The step ends an attempt on the notice without deleting it.
  predicate Fails(q: Queue, s: Step, n: NoticeId) {
    && (s.Commit? || s.Abort?) && s.worker in q.open && q.open[s.worker].notice == n
    && (s.Commit? ==> q.open[s.worker].heard == Some(false))
  }

  // The step commits a send that was heard.
  predicate Delivers(q: Queue, s: Step, n: NoticeId) {
    s.Commit? && s.worker in q.open && q.open[s.worker].notice == n && q.open[s.worker].heard == Some(true)
  }

  function Failures(queues: seq<Queue>, steps: seq<Step>, k: nat, n: NoticeId): nat
    requires k <= |steps| <= |queues|
  {
    if k == 0 then 0 else Failures(queues, steps, k - 1, n) + if Fails(queues[k - 1], steps[k - 1], n) then 1 else 0
  }

  // ----- Invariant -----

  predicate Tried(open: map<WorkerId, Attempt>, n: NoticeId) {
    exists w :: w in open && open[w].notice == n && open[w].heard.Some?
  }

  // Row locks: one transaction per notice, which reads the row as it stays.
  ghost predicate LocksValid(q: Queue) {
    && (forall v, w :: v in q.open && w in q.open && q.open[v].notice == q.open[w].notice ==> v == w)
    && (forall w :: w in q.open ==> q.open[w].notice in q.notices)
  }

  ghost predicate AddressesValid(q: Queue) {
    && (forall n :: n in q.notices ==> n in q.queued && q.notices[n].email == q.queued[n])
    && (forall w :: w in q.open ==> q.open[w].notice in q.queued && q.open[w].address == q.queued[q.open[w].notice])
    && (forall k :: 0 <= k < |q.mail| ==>
         q.mail[k].notice in q.queued && q.mail[k].address == q.queued[q.mail[k].notice])
  }

  predicate IsMailed(mail: seq<NoticeMail>, n: NoticeId) {
    exists k :: 0 <= k < |mail| && mail[k].notice == n
  }

  // A notice leaves the table only after its email was taken.
  ghost predicate NothingLost(q: Queue) {
    && (forall n :: n in q.queued && n !in q.notices ==> IsMailed(q.mail, n))
    && (forall w :: w in q.open && q.open[w].heard == Some(true) ==> IsMailed(q.mail, q.open[w].notice))
  }

  ghost predicate Valid(q: Queue) {
    LocksValid(q) && AddressesValid(q) && NothingLost(q)
  }

  lemma MailStays(q: Queue, s: Step)
    requires Enabled(q, s)
    ensures forall n :: IsMailed(q.mail, n) ==> IsMailed(Apply(q, s).mail, n)
    ensures s.Send? && !s.outcome.NotDone? ==> IsMailed(Apply(q, s).mail, q.open[s.worker].notice)
  {
    forall n | IsMailed(q.mail, n) ensures IsMailed(Apply(q, s).mail, n) {
      var k :| 0 <= k < |q.mail| && q.mail[k].notice == n;
      assert Apply(q, s).mail[k].notice == n;
    }
    if s.Send? && !s.outcome.NotDone? { assert Apply(q, s).mail[|q.mail|].notice == q.open[s.worker].notice; }
  }

  lemma StepKeeps(q: Queue, s: Step)
    requires Valid(q) && Enabled(q, s)
    ensures Valid(Apply(q, s))
  {
    LocksStay(q, s);
    AddressesStay(q, s);
    NothingIsLost(q, s);
    hide LocksValid, AddressesValid, NothingLost, Apply, Enabled;
  }

  lemma LocksStay(q: Queue, s: Step)
    requires LocksValid(q) && Enabled(q, s)
    ensures LocksValid(Apply(q, s))
  {
    hide NoticeDue, NoticeNoLater;
  }

  lemma AddressesStay(q: Queue, s: Step)
    requires AddressesValid(q) && Enabled(q, s)
    ensures AddressesValid(Apply(q, s))
  {
    hide NoticeDue, NoticeNoLater, LockedIn;
  }

  lemma NothingIsLost(q: Queue, s: Step)
    requires NothingLost(q) && AddressesValid(q) && Enabled(q, s)
    ensures NothingLost(Apply(q, s))
  {
    MailStays(q, s);
    hide IsMailed, IsNextNotice, LockedIn;
  }

  lemma {:induction false} RunKeeps(queues: seq<Queue>, steps: seq<Step>, k: nat)
    requires IsRun(queues, steps) && k < |queues|
    ensures Valid(queues[k])
  {
    hide Valid, Apply, Enabled;
    if k > 0 {
      RunKeeps(queues, steps, k - 1);
      StepKeeps(queues[k - 1], steps[k - 1]);
    } else {
      InitIsValid(queues[0]);
    }
  }

  lemma InitIsValid(q: Queue)
    requires Init(q)
    ensures Valid(q)
  {
  }

  // ----- Theorems -----

  /** A notice whose attempt failed waits exactly 30 seconds; a delivered one is gone; no other notice changes. */
  lemma CommitOutcome(q: Queue, w: WorkerId, at: Time, t: Time)
    requires Valid(q) && Enabled(q, Commit(w, at))
    ensures var n, after := q.open[w].notice, Apply(q, Commit(w, at)).notices;
      && (forall m :: m in q.notices && m != n ==> m in after && after[m] == q.notices[m])
      && if q.open[w].heard == Some(true) then after.Keys == q.notices.Keys - {n}
         else
           && after.Keys == q.notices.Keys && n in after
           && after[n].attemptCount == q.notices[n].attemptCount + 1 && after[n].email == q.notices[n].email
           && (NoticeDue(after[n], t) <==> at + 30 * SECOND <= t)
  {
    hide AddressesValid, NothingLost, IsNextNotice;
  }

  ghost predicate DueSoon(q: Queue) {
    forall n :: n in q.notices ==> q.notices[n].nextAttemptAt <= q.now + 30 * SECOND
  }

  lemma StepKeepsDue(q: Queue, s: Step)
    requires DueSoon(q) && Enabled(q, s)
    ensures DueSoon(Apply(q, s))
  {
    hide IsNextNotice;
  }

  lemma {:induction false} RunKeepsDue(queues: seq<Queue>, steps: seq<Step>, k: nat)
    requires IsRun(queues, steps) && k < |queues|
    ensures DueSoon(queues[k])
  {
    hide Apply, Enabled, DueSoon;
    if k > 0 {
      RunKeepsDue(queues, steps, k - 1);
      StepKeepsDue(queues[k - 1], steps[k - 1]);
    } else {
      assert DueSoon(queues[0]) by { NothingIsDue(queues[0]); }
    }
  }

  lemma NothingIsDue(q: Queue)
    requires Init(q)
    ensures DueSoon(q)
  {
  }

  /** In every run, 30 seconds after any state each of its unlocked notices is due, so that a worker finds one. */
  lemma NoticesComeDue(queues: seq<Queue>, steps: seq<Step>, k: nat, n: NoticeId, t: Time)
    requires IsRun(queues, steps) && k < |queues| && n in queues[k].notices && n !in LockedIn(queues[k].open)
    requires queues[k].now + 30 * SECOND <= t
    ensures queues[k].notices[n].nextAttemptAt <= t
    ensures exists m :: IsNextNotice(queues[k].notices, LockedIn(queues[k].open), m, t)
  {
    RunKeepsDue(queues, steps, k);
    hide IsRun, IsNextNotice;
    var notices, locked := queues[k].notices, LockedIn(queues[k].open);
    var due := set m | m in notices && m !in locked && NoticeDue(notices[m], t);
    NextExists(notices, locked, due, n, t);
  }

  /**
   In every run a queued notice is still in the table, or was emailed; and every email went to the address that was
   queued.
   */
  lemma NoNoticeIsLost(queues: seq<Queue>, steps: seq<Step>, k: nat, n: NoticeId)
    requires IsRun(queues, steps) && k < |queues| && n in queues[k].queued
    ensures n in queues[k].notices || IsMailed(queues[k].mail, n)
    ensures forall i :: 0 <= i < |queues[k].mail| && queues[k].mail[i].notice == n ==>
      queues[k].mail[i].address == queues[k].queued[n]
  {
    hide Apply, Enabled;
    RunKeeps(queues, steps, k);
  }

  /** At any time at most one worker holds a notice, and the notice is in the table. */
  lemma OneWorkerPerNotice(queues: seq<Queue>, steps: seq<Step>, k: nat, v: WorkerId, w: WorkerId)
    requires IsRun(queues, steps) && k < |queues| && v in queues[k].open && w in queues[k].open
    requires queues[k].open[v].notice == queues[k].open[w].notice
    ensures v == w && queues[k].open[v].notice in queues[k].notices
  {
    hide Apply, Enabled, AddressesValid, NothingLost;
    RunKeeps(queues, steps, k);
  }

  /** A queued notice keeps its address for good. */
  lemma {:induction false} QueuedStays(queues: seq<Queue>, steps: seq<Step>, i: nat, j: nat, n: NoticeId)
    requires IsRun(queues, steps) && i <= j < |queues| && n in queues[i].queued
    ensures n in queues[j].queued && queues[j].queued[n] == queues[i].queued[n]
    decreases j - i
  {
    if i < j {
      QueuedStays(queues, steps, i, j - 1, n);
      assert queues[j] == Apply(queues[j - 1], steps[j - 1]);
      hide IsNextNotice;
    }
  }

  /** Every queued notice was queued by a step of the run. */
  lemma {:induction false} QueuedByStep(queues: seq<Queue>, steps: seq<Step>, j: nat, n: NoticeId)
    requires IsRun(queues, steps) && j < |queues| && n in queues[j].queued
    ensures exists i :: 0 <= i < j && steps[i].Enqueue? && steps[i].notice == n && steps[i].email == queues[j].queued[n]
  {
    if j > 0 {
      assert queues[j] == Apply(queues[j - 1], steps[j - 1]);
      hide IsNextNotice;
      if n in queues[j - 1].queued {
        QueuedByStep(queues, steps, j - 1, n);
      } else {
        assert steps[j - 1].Enqueue?;
      }
    }
  }

  lemma {:induction false} GoneStays(queues: seq<Queue>, steps: seq<Step>, i: nat, j: nat, n: NoticeId)
    requires IsRun(queues, steps) && i <= j < |queues| && n in queues[i].queued && n !in queues[i].notices
    ensures n in queues[j].queued && n !in queues[j].notices
    decreases j - i
  {
    if i < j {
      GoneStays(queues, steps, i, j - 1, n);
      assert queues[j] == Apply(queues[j - 1], steps[j - 1]);
      hide IsNextNotice;
    }
  }

  /** After a delivery commits, no step sends the notice again. */
  lemma NoNoticeAfterDelivery(queues: seq<Queue>, steps: seq<Step>, i: nat, j: nat, n: NoticeId)
    requires IsRun(queues, steps) && i < j < |steps| && Delivers(queues[i], steps[i], n) && steps[j].Send?
    ensures steps[j].worker in queues[j].open && queues[j].open[steps[j].worker].notice != n
  {
    RunKeeps(queues, steps, i);
    RunKeeps(queues, steps, j);
    assert Enabled(queues[i], steps[i]) && Enabled(queues[j], steps[j]);
    assert queues[i + 1] == Apply(queues[i], steps[i]);
    GoneStays(queues, steps, i + 1, j, n);
  }

  // Where the emails of a notice come from: the delivery, an attempt that is still open, and failed attempts.
  ghost predicate MailsCounted(q: Queue, failures: nat, n: NoticeId) {
    MailsOf(q.mail, n) <= failures + if n !in q.notices || Tried(q.open, n) then 1 else 0
  }

  lemma NotQueuedNotMailed(mail: seq<NoticeMail>, n: NoticeId)
    requires !IsMailed(mail, n)
    ensures MailsOf(mail, n) == 0
  {
    if mail != [] {
      var rest := mail[..|mail| - 1];
      assert forall k :: 0 <= k < |rest| ==> rest[k] == mail[k];
      NotQueuedNotMailed(rest, n);
    }
  }

  lemma StepCounts(q: Queue, s: Step, failures: nat, n: NoticeId)
    requires Valid(q) && Enabled(q, s) && MailsCounted(q, failures, n)
    ensures MailsCounted(Apply(q, s), failures + if Fails(q, s, n) then 1 else 0, n)
  {
    var r := Apply(q, s);
    match s
    case Tick(_) =>
    case Enqueue(m, _, _, _) =>
      if m == n { NotQueuedNotMailed(q.mail, n); }
    case Lock(w, m, _) =>
      if Tried(q.open, n) {
        var v :| v in q.open && q.open[v].notice == n && q.open[v].heard.Some?;
        assert v in r.open && r.open[v] == q.open[v];
      }
    case Send(w, outcome) => SendCounts(q, w, outcome, failures, n);
    case Commit(w, _) => EndCounts(q, s, failures, n);
    case Abort(w) => EndCounts(q, s, failures, n);
  }

  lemma SendCounts(q: Queue, w: WorkerId, outcome: CallOutcome, failures: nat, n: NoticeId)
    requires Valid(q) && Enabled(q, Send(w, outcome)) && MailsCounted(q, failures, n)
    ensures MailsCounted(Apply(q, Send(w, outcome)), failures, n)
  {
    var r := Apply(q, Send(w, outcome));
    assert r.mail != q.mail ==> r.mail[..|q.mail|] == q.mail;
    if q.open[w].notice == n {
      assert !Tried(q.open, n);
      assert r.open[w].notice == n && r.open[w].heard.Some?;
      assert Tried(r.open, n);
    } else if Tried(q.open, n) {
      var v :| v in q.open && q.open[v].notice == n && q.open[v].heard.Some?;
      assert v in r.open && r.open[v] == q.open[v];
    }
  }

  lemma EndCounts(q: Queue, s: Step, failures: nat, n: NoticeId)
    requires Valid(q) && Enabled(q, s) && (s.Commit? || s.Abort?) && MailsCounted(q, failures, n)
    ensures MailsCounted(Apply(q, s), failures + if Fails(q, s, n) then 1 else 0, n)
  {
    var r := Apply(q, s);
    if q.open[s.worker].notice != n && Tried(q.open, n) {
      var v :| v in q.open && q.open[v].notice == n && q.open[v].heard.Some?;
      assert v in r.open && r.open[v] == q.open[v];
    }
  }

  lemma {:induction false} RunCounts(queues: seq<Queue>, steps: seq<Step>, k: nat, n: NoticeId)
    requires IsRun(queues, steps) && k < |queues|
    ensures MailsCounted(queues[k], Failures(queues, steps, k, n), n)
  {
    hide Valid, Apply, Enabled, MailsCounted;
    if k == 0 {
      NothingCounted(queues[0], n);
    } else {
      RunCounts(queues, steps, k - 1, n);
      RunKeeps(queues, steps, k - 1);
      StepCounts(queues[k - 1], steps[k - 1], Failures(queues, steps, k - 1, n), n);
    }
  }

  lemma NothingCounted(q: Queue, n: NoticeId)
    requires Init(q)
    ensures MailsCounted(q, 0, n)
  {
  }

  /** Every email of a notice beyond the first costs an attempt that failed or crashed. */
  lemma ExtraMailsCostFailures(queues: seq<Queue>, steps: seq<Step>, k: nat, n: NoticeId)
    requires IsRun(queues, steps) && k < |queues|
    ensures MailsOf(queues[k].mail, n) <= Failures(queues, steps, k, n) + 1
  {
    hide Apply, Enabled;
    RunCounts(queues, steps, k, n);
  }

  /**
   A notice whose send failed moves behind every notice that is already due, since both
   times come from the database clock: it is not picked while one of them waits.
   */
  lemma FailingNoticeGoesBehind(
    notices: Notices, locked: set<NoticeId>, n: NoticeId, m: NoticeId, at: Time, later: Time)
    requires n in notices && m in notices && m != n && m !in locked && NoticeDue(notices[m], at) && at <= later
    ensures !IsNextNotice(DeferNotice(notices, n, at), locked, n, later)
  {
    assert m in DeferNotice(notices, n, at) && DeferNotice(notices, n, at)[m] == notices[m];
  }
}
