/**
 The Identity service as a transition system: account transactions, the outbox
 relay, the broker, the email worker, the purge and the clock, in any interleaving
 and with a crash between any two steps.
 */
module System {
  import opened Options
  import opened Clock
  import opened Schema
  import opened Statements
  import opened Consistency
  import opened Transactions
  import opened Pacing

  type HoldId = int

  datatype Record = Record(event: EventId, challenge: ChallengeId, purpose: Purpose)

  // What the consumer of a partition is doing with the record at `index`.
  datatype Phase =
    | Idle
    | Fetched(index: nat)
    | Sending(index: nat, hold: HoldId)
    | Handled(index: nat)

  // `committed` is the offset in the broker, `position` the next offset in the consumer's memory.
  datatype Partition = Partition(log: seq<Record>, committed: nat, position: nat, phase: Phase)

  // An open delivery transaction: the rows that it locked and read, and whether the mail server took the email.
  datatype Hold = Hold(challenge: ChallengeId, account: Account, row: Challenge, material: Material, beganAt: Time,
    sent: bool)

  datatype Relay = Relay(event: EventId, appended: bool)

  datatype Mail = Mail(challenge: ChallengeId, purpose: Purpose, address: Email, code: string)

  datatype State = State(
    db: Tables,
    now: Time,
    settled: map<Subject, Time>,
    hashes: set<PasswordHash>,
    holds: map<HoldId, Hold>,
    relays: map<Owner, Relay>,
    partitions: seq<Partition>,
    mail: seq<Mail>)

  datatype Action =
    | Tick(to: Time)
    | Transact(tx: Tx)
    // The email worker.
    | Poll(p: nat)
    | Begin(p: nat, hold: HoldId, at: Time)
    | Send(hold: HoldId)
    | Finish(hold: HoldId, heardBy: Option<nat>)
    | Abort(hold: HoldId)
    | Rewind(p: nat)
    | CommitOffset(p: nat, landed: bool)
    | Rebalance(p: nat)
    | Purge(locked: set<Subject>, at: Time)
    // The outbox relay.
    | ClaimEvent(owner: Owner, event: EventId, at: Time)
    | Append(owner: Owner, p: nat)
    | MarkPublished(owner: Owner, at: Time)
    | Release(owner: Owner, nextAttemptAt: Time, at: Time)
    | CrashRelay(owner: Owner)

  predicate Init(st: State) {
    && st.db == EMPTY && st.settled == map[] && st.hashes == {} && st.holds == map[] && st.relays == map[]
    && st.mail == []
    && forall p :: 0 <= p < |st.partitions| ==> st.partitions[p] == Partition([], 0, 0, Idle)
  }

  function HeldSubjects(holds: map<HoldId, Hold>): set<Subject> {
    set h | h in holds :: holds[h].row.subject
  }

  // COMMIT and ROLLBACK release the row locks.
  function Resettle(
    accounts: Accounts, settled: map<Subject, Time>, locked: set<Subject>, now: Time): map<Subject, Time>
  {
    map s | s in accounts :: if s in settled && s !in locked then settled[s] else now
  }

  predicate HoldUnused(st: State, h: HoldId) {
    h !in st.holds && forall p :: 0 <= p < |st.partitions| && st.partitions[p].phase.Sending? ==>
      st.partitions[p].phase.hold != h
  }

  predicate InPhase(st: State, p: nat, fetched: bool) {
    p < |st.partitions| && (if fetched then st.partitions[p].phase.Fetched? else st.partitions[p].phase.Idle?)
  }

  predicate WellIndexed(q: Partition) {
    q.phase.Idle? || q.phase.index < |q.log|
  }

  ghost predicate Enabled(st: State, a: Action) {
    match a
    case Tick(to) => st.now <= to
    // A transaction waits for the account locks that a delivery holds.
    case Transact(tx) =>
      Fits(st.db, st.settled, st.now, tx) && FreshHash(tx, st.hashes) && Locks(st.db, tx) !! HeldSubjects(st.holds)
    case Poll(p) => InPhase(st, p, false) && st.partitions[p].position < |st.partitions[p].log|
    case Begin(p, h, at) =>
      && InPhase(st, p, true) && WellIndexed(st.partitions[p]) && HoldUnused(st, h)
      && (var c := st.partitions[p].log[st.partitions[p].phase.index].challenge;
          c in st.db.challenges ==>
            st.db.challenges[c].subject !in HeldSubjects(st.holds)
              && Timely(st.settled, st.now, st.db.challenges[c].subject, at))
    case Send(h) => h in st.holds && !st.holds[h].sent && Opens(st.holds[h])
    case Finish(h, heardBy) =>
      && h in st.holds && st.holds[h].sent
      && (heardBy.Some? ==>
           heardBy.value < |st.partitions| && st.partitions[heardBy.value].phase.Sending?
             && st.partitions[heardBy.value].phase.hold == h)
    case Abort(h) => h in st.holds
    case Rewind(p) => p < |st.partitions| && (st.partitions[p].phase.Fetched? || st.partitions[p].phase.Sending?)
    case CommitOffset(p, _) => p < |st.partitions| && st.partitions[p].phase.Handled?
    case Rebalance(p) => p < |st.partitions|
    case Purge(locked, at) => HeldSubjects(st.holds) <= locked && at <= st.now
    case ClaimEvent(o, e, at) => o !in st.relays && e in st.db.events && Due(st.db.events[e], at) && at <= st.now
    case Append(o, p) => o in st.relays && p < |st.partitions| && st.relays[o].event in st.db.events
    case MarkPublished(o, at) => o in st.relays && st.relays[o].appended && at <= st.now
    case Release(o, _, at) => o in st.relays && at <= st.now
    case CrashRelay(o) => o in st.relays
  }

  // The worker opens the sealed material and sends only to the account's address.
  predicate Opens(h: Hold) {
    && h.material.challenge == h.challenge && h.material.purpose == h.row.purpose
    && h.material.subject == h.row.subject && h.material.email == h.account.email
  }

  function SetPartition(st: State, p: nat, q: Partition): State
    requires p < |st.partitions|
  {
    st.(partitions := st.partitions[p := q])
  }

  function SetPhase(st: State, p: nat, phase: Phase): State
    requires p < |st.partitions|
  {
    SetPartition(st, p, st.partitions[p].(phase := phase))
  }

  /** WithCurrentDelivery up to the send. Every path that does not send commits at once. */
  function BeginDelivery(st: State, p: nat, h: HoldId, at: Time): State
    requires InPhase(st, p, true) && WellIndexed(st.partitions[p])
  {
    var i := st.partitions[p].phase.index;
    var r := st.partitions[p].log[i];
    var id := r.challenge;
    if id !in st.db.challenges || st.db.challenges[id].subject !in st.db.accounts then SetPhase(st, p, Handled(i))
    else
      var c := st.db.challenges[id];
      var a := st.db.accounts[c.subject];
      var released := SetPhase(st.(settled := Resettle(st.db.accounts, st.settled, {c.subject}, st.now)), p,
        Handled(i));
      if c.purpose != r.purpose then released
      else if !IsCurrentDelivery(a, c, at) then released.(db := DeleteChallengeDelivery(st.db, id))
      else if id !in st.db.deliveries then released
      else SetPhase(st, p, Sending(i, h)).(holds := st.holds[h := Hold(id, a, c, st.db.deliveries[id], at, false)])
  }

  function FinishDelivery(st: State, h: HoldId, heardBy: Option<nat>): State
    requires h in st.holds
    requires heardBy.Some? ==> heardBy.value < |st.partitions| && st.partitions[heardBy.value].phase.Sending?
  {
    var done := st.(
      db := DeleteChallengeDelivery(st.db, st.holds[h].challenge),
      holds := st.holds - {h},
      settled := Resettle(st.db.accounts, st.settled, {st.holds[h].row.subject}, st.now));
    if heardBy.None? then done
    else SetPhase(done, heardBy.value, Handled(st.partitions[heardBy.value].phase.index))
  }

  function RecordOf(db: Tables, e: EventId): Record
    requires e in db.events
  {
    var id := db.events[e].challenge;
    Record(e, id, if id in db.challenges then db.challenges[id].purpose else PurposeVerifyEmail)
  }

  // The purge holds the locks of the accounts whose material it deletes.
  function PurgeLocks(db: Tables, locked: set<Subject>, at: Time): set<Subject> {
    set id | id in db.deliveries && Purgeable(db, id, at) && db.challenges[id].subject !in locked ::
      db.challenges[id].subject
  }

  ghost function Apply(st: State, a: Action): State
    requires Enabled(st, a)
  {
    match a
    case Tick(to) => st.(now := to)
    case Transact(tx) =>
      var db' := After(Run(st.db, tx));
      st.(db := db', settled := Resettle(db'.accounts, st.settled, Locks(st.db, tx), st.now),
        hashes := st.hashes + HashesOf(tx))
    case Poll(p) =>
      var q := st.partitions[p];
      SetPartition(st, p, q.(position := q.position + 1, phase := Fetched(q.position)))
    case Begin(p, h, at) => BeginDelivery(st, p, h, at)
    case Send(h) =>
      var hold := st.holds[h];
      st.(holds := st.holds[h := hold.(sent := true)],
          mail := st.mail + [Mail(hold.challenge, hold.row.purpose, hold.material.email, hold.material.code)])
    case Finish(h, heardBy) => FinishDelivery(st, h, heardBy)
    case Abort(h) =>
      st.(holds := st.holds - {h}, settled := Resettle(st.db.accounts, st.settled, {st.holds[h].row.subject}, st.now))
    case Rewind(p) =>
      var q := st.partitions[p];
      SetPartition(st, p, q.(position := q.phase.index, phase := Idle))
    case CommitOffset(p, landed) =>
      var q := st.partitions[p];
      SetPartition(st, p, q.(committed := if landed then q.phase.index + 1 else q.committed, phase := Idle))
    case Rebalance(p) =>
      var q := st.partitions[p];
      SetPartition(st, p, q.(position := q.committed, phase := Idle))
    case Purge(locked, at) =>
      st.(db := PurgeTerminalDeliveries(st.db, locked, at),
          settled := Resettle(st.db.accounts, st.settled, PurgeLocks(st.db, locked, at), st.now))
    case ClaimEvent(o, e, at) =>
      st.(db := ClaimOutboxEvent(st.db, e, o, at), relays := st.relays[o := Relay(e, false)])
    case Append(o, p) =>
      var q := st.partitions[p];
      SetPartition(st, p,
        q.(log := q.log +
          [RecordOf(st.db, st.relays[o].event)])).(relays := st.relays[o := st.relays[o].(appended := true)])
    case MarkPublished(o, at) =>
      st.(db := MarkOutboxPublished(st.db, st.relays[o].event, o, at), relays := st.relays - {o})
    case Release(o, next, at) =>
      st.(db := ReleaseOutboxClaim(st.db, st.relays[o].event, o, next, at), relays := st.relays - {o})
    case CrashRelay(o) => st.(relays := st.relays - {o})
  }

  /** A run: the state after each of a sequence of enabled actions. */
  ghost predicate IsRun(states: seq<State>, actions: seq<Action>) {
    && |states| == |actions| + 1
    && Init(states[0])
    && forall i :: 0 <= i < |actions| ==>
         Enabled(states[i], actions[i]) && states[i + 1] == Apply(states[i], actions[i])
  }
}
