/**
 Idempotent workspace creation: an advisory try-lock, a record that lives for 24
 hours, and three inserts in one transaction.
 */
module WorkspaceCreation {
  import opened Options
  import opened Clock
  import Erasure

  type WorkspaceId = int

  datatype Workspace = Workspace(id: WorkspaceId, name: string, createdAt: Time)

  datatype Role = Viewer | Member | Admin | Owner

  datatype CreationKey = CreationKey(subject: string, idempotencyKey: string)

  // The request hash, SHA-256 of the name, stands for the name.
  datatype Creation = Creation(requestName: string, workspace: Workspace, completedAt: Time, expiresAt: Time)

  datatype Tables = Tables(
    workspaces: map<WorkspaceId, Workspace>,
    memberships: map<(WorkspaceId, string), Role>,
    creations: map<CreationKey, Creation>)

  datatype Request = Request(key: CreationKey, name: string)

  datatype Reply = Success(workspace: Workspace) | CreateInProgress | IdempotencyConflict

  // The values that a transaction draws: row id, transaction start, and the times of the DELETE and the last INSERT.
  datatype Draw = Draw(id: WorkspaceId, createdAt: Time, checkAt: Time, recordAt: Time)

  const LIFETIME := 24 * HOUR

  // ----- The idempotent map that it refines -----

  /** A record that is still alive at `now`. */
  predicate Alive(creations: map<CreationKey, Creation>, key: CreationKey, now: Time) {
    key in creations && creations[key].expiresAt > now
  }

  /** The reply and the tables of one committed request under its lock. */
  function Create(db: Tables, r: Request, d: Draw): (Reply, Tables) {
    if Alive(db.creations, r.key, d.checkAt) then
      (if db.creations[r.key].requestName == r.name
        then Success(db.creations[r.key].workspace) else IdempotencyConflict, db)
    else
      var w := Workspace(d.id, r.name, d.createdAt);
      (Success(w), Tables(
        db.workspaces[d.id := w],
        db.memberships[(d.id, r.key.subject) := Owner],
        db.creations[r.key := Creation(r.name, w, d.recordAt, d.recordAt + LIFETIME)]))
  }

  // The join of identity_workspaces with the memberships of the subject.
  function Shown(db: Tables, subject: string, id: WorkspaceId): Option<Workspace> {
    if id in db.workspaces && (id, subject) in db.memberships then Some(db.workspaces[id]) else None
  }

  class Store {
    var workspaces: map<WorkspaceId, Workspace>
    var memberships: map<(WorkspaceId, string), Role>
    var creations: map<CreationKey, Creation>

    constructor ()
      ensures Contents() == Tables(map[], map[], map[])
    {
      workspaces, memberships, creations := map[], map[], map[];
    }

    function Contents(): Tables
      reads this
    {
      Tables(workspaces, memberships, creations)
    }

    /**
     Under the lock: delete an expired record, replay a live one, or insert the workspace, its owner and the record.
     */
    method CreateWorkspace(r: Request, d: Draw) returns (reply: Reply)
      modifies this
      ensures (reply, Contents()) == Create(old(Contents()), r, d)
    {
      var snapshot := creations;
      if r.key in creations && creations[r.key].expiresAt <= d.checkAt {
        creations := creations - {r.key};
      }
      if r.key in creations {
        if creations[r.key].requestName != r.name {
          creations := snapshot;
          return IdempotencyConflict;
        }
        return Success(creations[r.key].workspace);
      }
      var w := Workspace(d.id, r.name, d.createdAt);
      workspaces := workspaces[d.id := w];
      memberships := memberships[(d.id, r.key.subject) := Owner];
      creations := creations[r.key := Creation(r.name, w, d.recordAt, d.recordAt + 24 * HOUR)];
      assert creations == snapshot[r.key := Creation(r.name, w, d.recordAt, d.recordAt + 24 * HOUR)];
      reply := Success(w);
    }

    /** Any membership of the subject shows it the workspace. */
    method GetWorkspace(subject: string, id: WorkspaceId) returns (found: Option<Workspace>)
      ensures found == Shown(Contents(), subject, id)
    {
      found := None;
      if id in workspaces && (id, subject) in memberships {
        found := Some(workspaces[id]);
      }
    }
  }

  // ----- Runs -----

  type LockId = int
  type TxId = int

  datatype Open = Open(request: Request, startedAt: Time)

  datatype Machine = Machine(db: Tables, now: Time, open: map<TxId, Open>, replies: map<TxId, Reply>,
    used: set<WorkspaceId>)

  datatype Step =
    | Tick(to: Time)
    // Begins a transaction and tries its advisory lock.
    | Start(tx: TxId, request: Request)
    | Finish(tx: TxId, draw: Draw)
    // A crash or a failed COMMIT rolls back and releases the lock.
    | Abort(tx: TxId)

  const START := Machine(Tables(map[], map[], map[]), 0, map[], map[], {})

  // Some open transaction holds the lock that the request needs.
  predicate Held(lock: CreationKey -> LockId, open: map<TxId, Open>, key: CreationKey) {
    exists t :: t in open && lock(open[t].request.key) == lock(key)
  }

  predicate Enabled(m: Machine, s: Step) {
    match s
    case Tick(to) => m.now <= to
    case Start(tx, _) => tx !in m.open && tx !in m.replies
    case Finish(tx, d) =>
      tx in m.open && d.id !in m.used && m.open[tx].startedAt <= d.checkAt <= d.recordAt <= m.now
        && d.createdAt <= m.open[tx].startedAt
    case Abort(tx) => tx in m.open
  }

  function Next(lock: CreationKey -> LockId, m: Machine, s: Step): Machine
    requires Enabled(m, s)
  {
    match s
    case Tick(to) => m.(now := to)
    case Start(tx, r) =>
      if Held(lock, m.open, r.key) then m.(replies := m.replies[tx := CreateInProgress])
      else m.(open := m.open[tx := Open(r, m.now)])
    case Finish(tx, d) =>
      var done := Create(m.db, m.open[tx].request, d);
      m.(db := done.1, open := m.open - {tx}, replies := m.replies[tx := done.0], used := m.used + {d.id})
    case Abort(tx) => m.(open := m.open - {tx})
  }

  ghost predicate IsRun(lock: CreationKey -> LockId, machines: seq<Machine>, steps: seq<Step>) {
    && |machines| == |steps| + 1 && machines[0] == START
    && forall i :: 0 <= i < |steps| ==>
         Enabled(machines[i], steps[i]) && machines[i + 1] == Next(lock, machines[i], steps[i])
  }

  // ----- Invariant -----

  predicate RecordValid(db: Tables, key: CreationKey, now: Time) {
    && key in db.creations
    && var c := db.creations[key];
    && c.expiresAt == c.completedAt + LIFETIME && c.completedAt <= now
    && c.workspace.id in db.workspaces && db.workspaces[c.workspace.id] == c.workspace
    && c.workspace.name == c.requestName
    && (c.workspace.id, key.subject) in db.memberships
  }

  ghost predicate RecordsValid(db: Tables, now: Time) {
    forall key :: key in db.creations ==> RecordValid(db, key, now)
  }

  predicate SoleOwner(memberships: map<(WorkspaceId, string), Role>, id: WorkspaceId, subject: string) {
    && (id, subject) in memberships && memberships[(id, subject)] == Owner
    && forall m :: m in memberships && m.0 == id ==> m.1 == subject
  }

  ghost predicate OwnersValid(db: Tables) {
    && (forall id :: id in db.workspaces ==> exists subject :: SoleOwner(db.memberships, id, subject))
    && (forall m :: m in db.memberships ==> m.0 in db.workspaces)
  }

  // The open transactions of one lock: at most one, and none started before the record that it would find was
  // completed.
  ghost predicate LocksValid(lock: CreationKey -> LockId, m: Machine) {
    && (forall t, u :: t in m.open && u in m.open && lock(m.open[t].request.key) == lock(m.open[u].request.key) ==>
         t == u)
    && (forall t :: t in m.open ==>
          && m.open[t].startedAt <= m.now
          && (m.open[t].request.key in m.db.creations ==>
               m.db.creations[m.open[t].request.key].completedAt <= m.open[t].startedAt))
  }

  ghost predicate MachineValid(lock: CreationKey -> LockId, m: Machine) {
    && RecordsValid(m.db, m.now) && OwnersValid(m.db) && LocksValid(lock, m)
    && (forall id :: id in m.db.workspaces ==> id in m.used)
  }

  // Workspaces and their memberships stay; a record is replaced only once it expired, by a later one.
  ghost predicate Advances(m: Machine, n: Machine) {
    && m.now <= n.now
    && (forall id :: id in m.db.workspaces ==> id in n.db.workspaces && n.db.workspaces[id] == m.db.workspaces[id])
    && (forall k :: k in m.db.memberships ==> k in n.db.memberships && n.db.memberships[k] == m.db.memberships[k])
    && (forall k :: k in m.db.creations ==>
          && k in n.db.creations
          && (n.db.creations[k] == m.db.creations[k] || m.db.creations[k].expiresAt <= n.db.creations[k].completedAt))
  }

  lemma CreateKeepsOwners(db: Tables, r: Request, d: Draw)
    requires OwnersValid(db) && d.id !in db.workspaces
    ensures OwnersValid(Create(db, r, d).1)
  {
    var db' := Create(db, r, d).1;
    if !Alive(db.creations, r.key, d.checkAt) {
      forall id | id in db'.workspaces ensures exists subject :: SoleOwner(db'.memberships, id, subject) {
        if id == d.id {
          assert SoleOwner(db'.memberships, id, r.key.subject);
        } else {
          var subject :| SoleOwner(db.memberships, id, subject);
          assert SoleOwner(db'.memberships, id, subject);
        }
      }
    }
  }

  lemma CreateKeepsRecords(db: Tables, r: Request, d: Draw, now: Time)
    requires RecordsValid(db, now) && d.id !in db.workspaces && d.recordAt <= now
    ensures RecordsValid(Create(db, r, d).1, now)
  {
    var db' := Create(db, r, d).1;
    if !Alive(db.creations, r.key, d.checkAt) {
      forall key | key in db'.creations ensures RecordValid(db', key, now) {
        if key != r.key { assert RecordValid(db, key, now); }
      }
    }
  }

  lemma FinishAdvances(lock: CreationKey -> LockId, m: Machine, tx: TxId, d: Draw)
    requires OwnersValid(m.db) && (forall id :: id in m.db.workspaces ==> id in m.used) && Enabled(m, Finish(tx, d))
    ensures Advances(m, Next(lock, m, Finish(tx, d)))
  {
    hide SoleOwner;
  }

  // The lock of the key is released; no other open transaction has it.
  lemma FinishKeepsLocks(lock: CreationKey -> LockId, m: Machine, tx: TxId, d: Draw)
    requires LocksValid(lock, m) && Enabled(m, Finish(tx, d))
    ensures LocksValid(lock, Next(lock, m, Finish(tx, d)))
  {
    var n := Next(lock, m, Finish(tx, d));
    forall t | t in n.open ensures n.open[t].request.key != m.open[tx].request.key {
      assert t in m.open && t != tx;
    }
  }

  lemma FinishKeeps(lock: CreationKey -> LockId, m: Machine, tx: TxId, d: Draw)
    requires MachineValid(lock, m) && Enabled(m, Finish(tx, d))
    ensures MachineValid(lock, Next(lock, m, Finish(tx, d))) && Advances(m, Next(lock, m, Finish(tx, d)))
  {
    CreateKeepsOwners(m.db, m.open[tx].request, d);
    CreateKeepsRecords(m.db, m.open[tx].request, d, m.now);
    FinishAdvances(lock, m, tx, d);
    FinishKeepsLocks(lock, m, tx, d);
    hide OwnersValid, RecordsValid, LocksValid, Advances, Alive;
  }

  lemma TickKeepsRecord(db: Tables, key: CreationKey, now: Time, to: Time)
    requires RecordValid(db, key, now) && now <= to
    ensures RecordValid(db, key, to) && db.creations[key].completedAt <= now
  {
  }

  lemma StepKeeps(lock: CreationKey -> LockId, m: Machine, s: Step)
    requires MachineValid(lock, m) && Enabled(m, s)
    ensures MachineValid(lock, Next(lock, m, s)) && Advances(m, Next(lock, m, s))
  {
    hide OwnersValid, RecordValid, SoleOwner;
    match s
    case Tick(to) =>
      forall key | key in m.db.creations ensures RecordValid(m.db, key, to) {
        assert RecordValid(m.db, key, m.now);
        TickKeepsRecord(m.db, key, m.now, to);
      }
    case Start(tx, r) =>
      if r.key in m.db.creations {
        assert RecordValid(m.db, r.key, m.now);
        TickKeepsRecord(m.db, r.key, m.now, m.now);
      }
    case Finish(tx, d) => FinishKeeps(lock, m, tx, d);
    case Abort(tx) =>
  }

  lemma AdvancesIsTransitive(a: Machine, b: Machine, c: Machine, lock: CreationKey -> LockId)
    requires Advances(a, b) && Advances(b, c) && RecordsValid(b.db, b.now)
    ensures Advances(a, c)
  {
    forall k | k in a.db.creations
      ensures k in c.db.creations
      ensures (c.db.creations[k] == a.db.creations[k] || a.db.creations[k].expiresAt <= c.db.creations[k].completedAt)
    {
      assert k in b.db.creations && RecordValid(b.db, k, b.now);
    }
  }

  lemma {:induction false} RunKeeps(
    lock: CreationKey -> LockId, machines: seq<Machine>, steps: seq<Step>, i: nat, j: nat)
    requires IsRun(lock, machines, steps) && i <= j < |machines|
    ensures MachineValid(lock, machines[i]) && MachineValid(lock, machines[j]) && Advances(machines[i], machines[j])
    decreases j
  {
    if j > 0 {
      hide Next, Enabled, Advances, RecordsValid, RecordValid, OwnersValid;
      RunKeeps(lock, machines, steps, if i < j then i else i - 1, j - 1);
      StepKeeps(lock, machines[j - 1], steps[j - 1]);
      if i < j { AdvancesIsTransitive(machines[i], machines[j - 1], machines[j], lock); }
    }
  }

  // ----- Theorems -----

  ghost predicate FinishesFor(m: Machine, s: Step, key: CreationKey) {
    s.Finish? && s.tx in m.open && m.open[s.tx].request.key == key
  }

  // The step creates a workspace for the key.
  ghost predicate CreatesFor(m: Machine, s: Step, key: CreationKey) {
    FinishesFor(m, s, key) && !Alive(m.db.creations, key, s.draw.checkAt)
  }

  // What the lock of the key guarantees to a finishing transaction.
  lemma RecordPrecedesCheck(
    lock: CreationKey -> LockId, machines: seq<Machine>, steps: seq<Step>, j: nat, key: CreationKey)
    requires IsRun(lock, machines, steps) && j < |steps| && FinishesFor(machines[j], steps[j], key)
    ensures key in machines[j].db.creations ==> machines[j].db.creations[key].completedAt <= steps[j].draw.checkAt
  {
    assert Enabled(machines[j], steps[j]);
    hide Next;
    RunKeeps(lock, machines, steps, j, j);
  }

  lemma RecordAfterCreation(
    lock: CreationKey -> LockId, machines: seq<Machine>, steps: seq<Step>, i: nat, j: nat, key: CreationKey)
    requires IsRun(lock, machines, steps) && i < j < |steps|
    requires CreatesFor(machines[i], steps[i], key) && FinishesFor(machines[j], steps[j], key)
    ensures key in machines[i + 1].db.creations && key in machines[j].db.creations
    ensures machines[i + 1].db.creations[key].workspace.id == steps[i].draw.id
    ensures machines[i + 1].db.creations[key].requestName == machines[i].open[steps[i].tx].request.name
    ensures machines[i + 1].db.creations[key].expiresAt == steps[i].draw.recordAt + LIFETIME
    ensures machines[j].db.creations[key] == machines[i + 1].db.creations[key]
      || steps[i].draw.recordAt + LIFETIME <= steps[j].draw.checkAt
  {
    assert machines[i + 1] == Next(lock, machines[i], steps[i]);
    assert machines[i + 1].db.creations[key].expiresAt == steps[i].draw.recordAt + LIFETIME;
    hide Next;
    RunKeeps(lock, machines, steps, i + 1, j);
    RecordPrecedesCheck(lock, machines, steps, j, key);
  }

  /** Two creations for one subject and key are at least 24 hours apart. */
  lemma CreationsAreADayApart(
    lock: CreationKey -> LockId, machines: seq<Machine>, steps: seq<Step>, i: nat, j: nat, key: CreationKey)
    requires IsRun(lock, machines, steps) && i < j < |steps|
    requires CreatesFor(machines[i], steps[i], key) && CreatesFor(machines[j], steps[j], key)
    ensures steps[i].draw.recordAt + 24 * HOUR <= steps[j].draw.checkAt <= steps[j].draw.recordAt
  {
    assert Enabled(machines[j], steps[j]);
    hide Next;
    RecordAfterCreation(lock, machines, steps, i, j, key);
  }

  /**
   Within the life of a record every request of the subject with the key and the name
   gets the workspace that was created, and one with another name conflicts without effect.
   */
  lemma RepliesRepeat(
    lock: CreationKey -> LockId, machines: seq<Machine>, steps: seq<Step>, i: nat, j: nat, key: CreationKey)
    requires IsRun(lock, machines, steps) && i < j < |steps|
    requires CreatesFor(machines[i], steps[i], key) && FinishesFor(machines[j], steps[j], key)
    requires steps[j].draw.checkAt < steps[i].draw.recordAt + 24 * HOUR
    ensures machines[j + 1].db == machines[j].db
    ensures steps[i].tx in machines[i + 1].replies && steps[j].tx in machines[j + 1].replies
    ensures var first, again := machines[i].open[steps[i].tx].request, machines[j].open[steps[j].tx].request;
      machines[j + 1].replies[steps[j].tx] ==
        if again.name == first.name then machines[i + 1].replies[steps[i].tx] else IdempotencyConflict
  {
    RecordAfterCreation(lock, machines, steps, i, j, key);
    assert Enabled(machines[i], steps[i]) && Enabled(machines[j], steps[j]);
    assert machines[i + 1] == Next(lock, machines[i], steps[i]) && machines[j + 1] == Next(lock, machines[j], steps[j]);
  }

  // A creation for the key at step `i` completed less than 24 hours before the check of step `j`.
  ghost predicate LatelyAt(machines: seq<Machine>, steps: seq<Step>, i: nat, j: nat, key: CreationKey) {
    && i < j < |steps| <= |machines| && steps[j].Finish? && CreatesFor(machines[i], steps[i], key)
    && steps[j].draw.checkAt < steps[i].draw.recordAt + 24 * HOUR
  }

  ghost predicate CreatedLately(machines: seq<Machine>, steps: seq<Step>, j: nat, key: CreationKey) {
    exists i: nat :: LatelyAt(machines, steps, i, j, key)
  }

  // The record of a key comes from the last creation.
  lemma {:induction false} RecordsComeFromCreations(
    lock: CreationKey -> LockId, machines: seq<Machine>, steps: seq<Step>, n: nat, key: CreationKey)
    requires IsRun(lock, machines, steps) && n < |machines| && key in machines[n].db.creations
    ensures exists i ::
      && 0 <= i < n && CreatesFor(machines[i], steps[i], key)
      && machines[n].db.creations[key].expiresAt == steps[i].draw.recordAt + 24 * HOUR
  {
    if n > 0 {
      var m, s := machines[n - 1], steps[n - 1];
      assert Enabled(m, s) && machines[n] == Next(lock, m, s);
      if CreatesFor(m, s, key) {
      } else {
        RecordStays(lock, m, s, key);
        RecordsComeFromCreations(lock, machines, steps, n - 1, key);
      }
    }
  }

  lemma RecordStays(lock: CreationKey -> LockId, m: Machine, s: Step, key: CreationKey)
    requires Enabled(m, s) && !CreatesFor(m, s, key) && key in Next(lock, m, s).db.creations
    ensures key in m.db.creations && Next(lock, m, s).db.creations[key] == m.db.creations[key]
  {
  }

  /**
   A request that gets its lock creates a workspace if and only if no creation for its key completed in the last 24
   hours.
   */
  lemma CreatesUnlessLately(
    lock: CreationKey -> LockId, machines: seq<Machine>, steps: seq<Step>, j: nat, key: CreationKey)
    requires IsRun(lock, machines, steps) && j < |steps| && FinishesFor(machines[j], steps[j], key)
    ensures CreatesFor(machines[j], steps[j], key) <==> !CreatedLately(machines, steps, j, key)
    ensures steps[j].tx in machines[j + 1].replies
    ensures CreatesFor(machines[j], steps[j], key) ==>
      machines[j + 1].replies[steps[j].tx] ==
        Success(Workspace(steps[j].draw.id, machines[j].open[steps[j].tx].request.name, steps[j].draw.createdAt))
  {
    assert Enabled(machines[j], steps[j]) && machines[j + 1] == Next(lock, machines[j], steps[j]);
    hide IsRun, Next;
    if !CreatesFor(machines[j], steps[j], key) {
      RecordsComeFromCreations(lock, machines, steps, j, key);
      var i: nat :| i < j && CreatesFor(machines[i], steps[i], key)
        && machines[j].db.creations[key].expiresAt == steps[i].draw.recordAt + 24 * HOUR;
      assert LatelyAt(machines, steps, i, j, key);
    } else if i: nat :| LatelyAt(machines, steps, i, j, key) {
      CreationsAreADayApart(lock, machines, steps, i, j, key);
    }
  }

  // ----- Colliding lock ids -----

  // Lock ids collide under `other` only where they collide under `lock`; an injective map is such an `other`.
  ghost predicate Finer(other: CreationKey -> LockId, lock: CreationKey -> LockId) {
    forall k, l :: other(k) == other(l) ==> lock(k) == lock(l)
  }

  ghost function StepsUnder(lock: CreationKey -> LockId): (Machine, Step, Machine) -> bool {
    (m: Machine, s: Step, n: Machine) => Enabled(m, s) && n == Next(lock, m, s)
  }

  // The request is answered "in progress".
  ghost function InProgress(lock: CreationKey -> LockId): (Machine, Step) -> bool {
    (m: Machine, s: Step) => s.Start? && Held(lock, m.open, s.request.key)
  }

  function Answered(replies: map<TxId, Reply>): map<TxId, Reply> {
    map t | t in replies && replies[t] != CreateInProgress :: replies[t]
  }

  ghost predicate SameButRefusals(m: Machine, n: Machine) {
    n == m.(replies := Answered(m.replies))
  }

  lemma RunIsChain(lock: CreationKey -> LockId, machines: seq<Machine>, steps: seq<Step>)
    ensures IsRun(lock, machines, steps) <==>
      Erasure.IsChain(StepsUnder(lock), machines, steps) && machines[0] == START
  {
    hide Next, Enabled;
    var step := StepsUnder(lock);
    if IsRun(lock, machines, steps) {
      forall i | 0 <= i < |steps| ensures step(machines[i], steps[i], machines[i + 1]) {
      }
    }
    if Erasure.IsChain(step, machines, steps) && machines[0] == START {
      forall i | 0 <= i < |steps|
        ensures Enabled(machines[i], steps[i]) && machines[i + 1] == Next(lock, machines[i], steps[i])
      {
        assert step(machines[i], steps[i], machines[i + 1]);
      }
    }
  }

  lemma FinerHolds(lock: CreationKey -> LockId, other: CreationKey -> LockId, open: map<TxId, Open>, key: CreationKey)
    requires Finer(other, lock)
    ensures Held(other, open, key) ==> Held(lock, open, key)
  {
  }

  lemma StepWithoutRefusals(lock: CreationKey -> LockId, other: CreationKey -> LockId, m: Machine, s: Step, n: Machine)
    requires Finer(other, lock) && Enabled(m, s) && SameButRefusals(m, n)
    ensures InProgress(lock)(m, s) ==> SameButRefusals(Next(lock, m, s), n)
    ensures !InProgress(lock)(m, s) ==> Enabled(n, s) && SameButRefusals(Next(lock, m, s), Next(other, n, s))
  {
    var m' := Next(lock, m, s);
    match s
    case Tick(_) =>
    case Start(tx, r) =>
      FinerHolds(lock, other, m.open, r.key);
      assert Answered(m'.replies) == Answered(m.replies);
    case Finish(tx, d) =>
      var reply := Create(m.db, m.open[tx].request, d).0;
      assert Answered(m.replies[tx := reply]) == Answered(m.replies)[tx := reply];
    case Abort(_) =>
  }

  /**
   Lock ids that collide only delay: a run under them, without the requests that it answered
   "in progress", is a run under any finer lock ids, with the same tables and the same other replies.
   */
  lemma LockOnlyDelays(
    lock: CreationKey -> LockId, other: CreationKey -> LockId, machines: seq<Machine>, steps: seq<Step>)
    requires IsRun(lock, machines, steps) && Finer(other, lock)
    ensures exists shadow: seq<Machine> ::
      && IsRun(other, shadow, Erasure.Remaining(InProgress(lock), machines, steps))
      && SameButRefusals(machines[|steps|], shadow[|shadow| - 1])
  {
    var step, next, refused := StepsUnder(lock), StepsUnder(other), InProgress(lock);
    var left := Erasure.Remaining(refused, machines, steps);
    RunIsChain(lock, machines, steps);
    assert SameButRefusals(START, START) by { assert Answered(map[]) == map[]; }
    hide Enabled, Next, SameButRefusals;
    forall m, s, m', n | step(m, s, m') && SameButRefusals(m, n)
      ensures exists n' :: Erasure.Answers(next, SameButRefusals, refused(m, s), s, m', n, n')
    {
      StepWithoutRefusals(lock, other, m, s, n);
      if refused(m, s) {
        assert Erasure.Answers(next, SameButRefusals, refused(m, s), s, m', n, n);
      } else {
        assert Erasure.Answers(next, SameButRefusals, refused(m, s), s, m', n, Next(other, n, s));
      }
    }
    Erasure.ErasedRun(step, next, SameButRefusals, refused, machines, steps, START);
    var shadow :| Erasure.IsShadow(next, SameButRefusals, START, machines[|steps|], shadow, left);
    RunIsChain(other, shadow, left);
    assert SameButRefusals(machines[|steps|], shadow[|shadow| - 1]);
  }

  // ----- Owners -----

  predicate CreatesAs(m: Machine, s: Step, id: WorkspaceId, subject: string) {
    s.Finish? && s.draw.id == id && s.tx in m.open && m.open[s.tx].request.key.subject == subject
  }

  ghost predicate CreatedBy(machines: seq<Machine>, steps: seq<Step>, n: nat, id: WorkspaceId, subject: string) {
    n <= |steps| <= |machines| && exists i :: 0 <= i < n && CreatesAs(machines[i], steps[i], id, subject)
  }

  lemma NewWorkspace(lock: CreationKey -> LockId, m: Machine, s: Step, id: WorkspaceId)
    requires Enabled(m, s) && id !in m.db.workspaces && id in Next(lock, m, s).db.workspaces && MachineValid(lock, m)
    ensures s.Finish? && s.draw.id == id
    ensures SoleOwner(Next(lock, m, s).db.memberships, id, m.open[s.tx].request.key.subject)
  {
  }

  lemma OwnerStays(lock: CreationKey -> LockId, m: Machine, s: Step, id: WorkspaceId, subject: string)
    requires Enabled(m, s) && id in m.db.workspaces && SoleOwner(m.db.memberships, id, subject) && MachineValid(lock, m)
    ensures SoleOwner(Next(lock, m, s).db.memberships, id, subject)
  {
  }

  /** Every workspace has exactly one owner, the subject whose request created it. */
  lemma {:induction false} OwnerIsCreator(
    lock: CreationKey -> LockId, machines: seq<Machine>, steps: seq<Step>, n: nat, id: WorkspaceId)
    requires IsRun(lock, machines, steps) && n < |machines| && id in machines[n].db.workspaces
    ensures exists subject ::
      SoleOwner(machines[n].db.memberships, id, subject) && CreatedBy(machines, steps, n, id, subject)
  {
    hide Next, SoleOwner;
    RunKeeps(lock, machines, steps, n, n);
    assert n > 0;
    RunKeeps(lock, machines, steps, n - 1, n - 1);
    var m, s := machines[n - 1], steps[n - 1];
    assert machines[n] == Next(lock, m, s);
    if id in m.db.workspaces {
      OwnerIsCreator(lock, machines, steps, n - 1, id);
      var subject :| SoleOwner(m.db.memberships, id, subject) && CreatedBy(machines, steps, n - 1, id, subject);
      OwnerStays(lock, m, s, id, subject);
      assert CreatedBy(machines, steps, n, id, subject);
    } else {
      NewWorkspace(lock, m, s, id);
      assert CreatedBy(machines, steps, n, id, m.open[s.tx].request.key.subject);
    }
  }

  lemma {:induction false} OwnerStaysInRun(
    lock: CreationKey -> LockId, machines: seq<Machine>, steps: seq<Step>, i: nat, j: nat, id: WorkspaceId,
    subject: string)
    requires IsRun(lock, machines, steps) && i <= j < |machines|
    requires id in machines[i].db.workspaces && SoleOwner(machines[i].db.memberships, id, subject)
    ensures id in machines[j].db.workspaces && machines[j].db.workspaces[id] == machines[i].db.workspaces[id]
    ensures SoleOwner(machines[j].db.memberships, id, subject)
    decreases j
  {
    hide Next, SoleOwner, RecordsValid, OwnersValid, LocksValid;
    RunKeeps(lock, machines, steps, i, j);
    if i < j {
      OwnerStaysInRun(lock, machines, steps, i, j - 1, id, subject);
      RunKeeps(lock, machines, steps, i, j - 1);
      OwnerStays(lock, machines[j - 1], steps[j - 1], id, subject);
    }
  }

  /**
   From its creation on, in every later state, a workspace is shown to the subject that created it and to no other.
   */
  lemma OnlyTheCreatorIsShown(
    lock: CreationKey -> LockId, machines: seq<Machine>, steps: seq<Step>, i: nat, j: nat, key: CreationKey,
    subject: string)
    requires IsRun(lock, machines, steps) && i < j < |machines| && CreatesFor(machines[i], steps[i], key)
    ensures var d, r := steps[i].draw, machines[i].open[steps[i].tx].request;
      Shown(machines[j].db, subject, d.id) ==
        if subject == key.subject then Some(Workspace(d.id, r.name, d.createdAt)) else None
  {
    assert Enabled(machines[i], steps[i]) && machines[i + 1] == Next(lock, machines[i], steps[i]);
    RunKeeps(lock, machines, steps, i, i);
    assert steps[i].draw.id !in machines[i].db.workspaces;
    NewWorkspace(lock, machines[i], steps[i], steps[i].draw.id);
    assert machines[i + 1].db.workspaces[steps[i].draw.id] ==
      Workspace(steps[i].draw.id, machines[i].open[steps[i].tx].request.name, steps[i].draw.createdAt);
    hide Next, IsRun;
    OwnerStaysInRun(lock, machines, steps, i + 1, j, steps[i].draw.id, key.subject);
  }

  /** Whoever is shown a workspace created it. */
  lemma ShownWasCreated(
    lock: CreationKey -> LockId, machines: seq<Machine>, steps: seq<Step>, n: nat, id: WorkspaceId, subject: string)
    requires IsRun(lock, machines, steps) && n < |machines| && Shown(machines[n].db, subject, id).Some?
    ensures CreatedBy(machines, steps, n, id, subject)
  {
    hide IsRun;
    OwnerIsCreator(lock, machines, steps, n, id);
  }
}
