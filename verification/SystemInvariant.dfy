/** The invariant of every reachable state, and its preservation by every action. */
module SystemInvariant {
  import opened Options
  import opened Clock
  import opened Schema
  import opened Statements
  import opened Consistency
  import opened Transactions
  import opened TransactionProofs
  import opened Pacing
  import opened System

  // ----- Tables and clocks -----

  ghost predicate ClockValid(accounts: Accounts, settled: map<Subject, Time>, now: Time) {
    settled.Keys == accounts.Keys && forall s :: s in settled ==> settled[s] <= now
  }

  ghost predicate HashesDrawn(accounts: Accounts, hashes: set<PasswordHash>) {
    forall s :: s in accounts && accounts[s].passwordHash.Some? ==> accounts[s].passwordHash.value in hashes
  }

  ghost predicate TimesOk(
    accounts: Accounts, sessions: Sessions, challenges: Challenges, settled: map<Subject, Time>,
    hashes: set<PasswordHash>, now: Time)
  {
    && ClockValid(accounts, settled, now)
    && IdleBounded(sessions, settled)
    && IssuedBefore(challenges, settled)
    && AtMostFiveAnHour(challenges)
    && AMinuteApart(challenges)
    && HashesDrawn(accounts, hashes)
  }

  ghost predicate TablesOk(st: State) {
    Valid(st.db) && TimesOk(st.db.accounts, st.db.sessions, st.db.challenges, st.settled, st.hashes, st.now)
  }

  // ----- Delivery transactions -----

  // The rows are still as they were read, and the material is there.
  predicate HoldValid(db: Tables, h: Hold) {
    && h.row.subject in db.accounts && db.accounts[h.row.subject] == h.account
    && h.challenge in db.challenges && db.challenges[h.challenge] == h.row
    && h.challenge in db.deliveries && db.deliveries[h.challenge] == h.material
    && IsCurrentDelivery(h.account, h.row, h.beganAt)
  }

  ghost predicate HoldsValid(db: Tables, holds: map<HoldId, Hold>) {
    forall h :: h in holds ==> HoldValid(db, holds[h])
  }

  ghost predicate OnlyHold(holds: map<HoldId, Hold>, h: HoldId, s: Subject) {
    forall k :: k in holds && holds[k].row.subject == s ==> k == h
  }

  ghost predicate OneHoldPerAccount(holds: map<HoldId, Hold>) {
    forall h :: h in holds ==> OnlyHold(holds, h, holds[h].row.subject)
  }

  // ----- Outbox and broker -----

  predicate LoggedAt(partitions: seq<Partition>, c: ChallengeId, p: nat, i: nat) {
    p < |partitions| && i < |partitions[p].log| && partitions[p].log[i].challenge == c
  }

  ghost predicate Logged(partitions: seq<Partition>, c: ChallengeId) {
    exists p: nat, i: nat :: LoggedAt(partitions, c, p, i)
  }

  // A record names an event, its challenge and that challenge's purpose.
  predicate RecordValid(challenges: Challenges, r: Record) {
    r.challenge in challenges && challenges[r.challenge].purpose == r.purpose
  }

  ghost predicate LogsValid(challenges: Challenges, partitions: seq<Partition>) {
    forall p, i :: 0 <= p < |partitions| && 0 <= i < |partitions[p].log| ==>
      RecordValid(challenges, partitions[p].log[i])
  }

  ghost predicate PublishedLogged(events: Events, partitions: seq<Partition>) {
    forall e :: e in events && events[e].publishedAt.Some? ==> Logged(partitions, events[e].challenge)
  }

  ghost predicate RelaysValid(events: Events, relays: map<Owner, Relay>, partitions: seq<Partition>) {
    forall o :: o in relays ==>
      relays[o].event in events && (relays[o].appended ==> Logged(partitions, events[relays[o].event].challenge))
  }

  // A lease is at most 30 seconds old or less.
  ghost predicate LeasesBounded(events: Events, now: Time) {
    forall e :: e in events && events[e].claim.Some? ==> events[e].claim.value.until <= now + LEASE
  }

  ghost predicate OutboxOk(st: State) {
    && LogsValid(st.db.challenges, st.partitions)
    && PublishedLogged(st.db.events, st.partitions)
    && RelaysValid(st.db.events, st.relays, st.partitions)
    && LeasesBounded(st.db.events, st.now)
  }

  // ----- Consumers -----

  // Nothing is left to send for the challenge, now or later.
  predicate Settled(db: Tables, now: Time, c: ChallengeId) {
    && c in db.challenges
    && (c !in db.deliveries ||
        (db.challenges[c].subject in db.accounts
          && IsTerminal(db.accounts[db.challenges[c].subject], db.challenges[c], now)))
  }

  predicate Pending(q: Partition, i: nat) {
    (q.phase.Fetched? || q.phase.Sending?) && q.phase.index == i
  }

  ghost predicate PartitionValid(db: Tables, now: Time, holds: map<HoldId, Hold>, q: Partition) {
    && q.committed <= q.position <= |q.log|
    && (!q.phase.Idle? ==> q.phase.index + 1 == q.position && q.committed <= q.phase.index + 1)
    && (q.phase.Fetched? || q.phase.Sending? ==> q.committed <= q.phase.index)
    && (q.phase.Sending? && q.phase.hold in holds ==> holds[q.phase.hold].challenge == q.log[q.phase.index].challenge)
    && (forall i: nat :: i < q.position && !Pending(q, i) ==> Settled(db, now, q.log[i].challenge))
  }

  ghost predicate PartitionsOk(st: State) {
    forall p :: 0 <= p < |st.partitions| ==> PartitionValid(st.db, st.now, st.holds, st.partitions[p])
  }

  ghost predicate Inv(st: State) {
    && TablesOk(st)
    && HoldsValid(st.db, st.holds) && OneHoldPerAccount(st.holds)
    && OutboxOk(st)
    && PartitionsOk(st)
  }

  lemma EmptyIsPaced()
    ensures AtMostFiveAnHour(map[]) && AMinuteApart(map[]) && IssuedBefore(map[], map[])
    ensures IdleBounded(map[], map[]) && HashesDrawn(map[], {})
  {
    forall s, from ensures |IssuedInHour(map[], s, from)| <= 5 {
      assert IssuedInHour(map[], s, from) == {};
    }
  }

  lemma EmptyIsValid()
    ensures Valid(EMPTY)
  {
  }

  lemma EmptyPartitionsOk(partitions: seq<Partition>)
    requires forall p :: 0 <= p < |partitions| ==> partitions[p] == Partition([], 0, 0, Idle)
    ensures LogsValid(map[], partitions)
    ensures forall p :: 0 <= p < |partitions| ==> PartitionValid(EMPTY, 0, map[], partitions[p])
  {
  }

  lemma InitInv(st: State)
    requires Init(st)
    ensures Inv(st)
  {
    EmptyIsPaced();
    EmptyIsValid();
    EmptyPartitionsOk(st.partitions);
    forall p | 0 <= p < |st.partitions| ensures PartitionValid(st.db, st.now, st.holds, st.partitions[p]) {
    }
  }

  // ----- Stability -----

  /** A challenge that the purge may delete stays one that it may delete. */
  lemma TerminalIsStable(a: Account, c: Challenge, now: Time, a': Account, c': Challenge, now': Time)
    requires IsTerminal(a, c, now) && ChallengeValid(a, c)
    requires AccountAdvances(a, a') && ChallengeAdvances(c, c') && now <= now'
    ensures IsTerminal(a', c', now')
  {
  }

  lemma SettledIsStable(db: Tables, now: Time, db': Tables, now': Time, c: ChallengeId)
    requires Settled(db, now, c) && Valid(db) && Advances(db, db') && now <= now'
    ensures Settled(db', now', c)
  {
    if c in db.deliveries {
      var s := db.challenges[c].subject;
      TerminalIsStable(db.accounts[s], db.challenges[c], now, db'.accounts[s], db'.challenges[c], now');
    }
  }

  lemma PartitionIsStable(
    db: Tables, now: Time, holds: map<HoldId, Hold>, db': Tables, now': Time, holds': map<HoldId, Hold>, q: Partition)
    requires PartitionValid(db, now, holds, q) && Valid(db) && Advances(db, db') && now <= now'
    requires q.phase.Sending? && q.phase.hold in holds' ==>
      q.phase.hold in holds && holds'[q.phase.hold].challenge == holds[q.phase.hold].challenge
    ensures PartitionValid(db', now', holds', q)
  {
    forall i: nat | i < q.position && !Pending(q, i) ensures Settled(db', now', q.log[i].challenge) {
      SettledIsStable(db, now, db', now', q.log[i].challenge);
    }
  }

  // The invariants of the partitions that keep their log and consumer.
  lemma PartitionsAreStable(st: State, st': State)
    requires PartitionsOk(st) && Valid(st.db) && Advances(st.db, st'.db) && st.now <= st'.now
    requires st'.partitions == st.partitions
    requires forall h :: h in st'.holds && h in st.holds ==> st'.holds[h].challenge == st.holds[h].challenge
    requires forall p ::
      0 <= p < |st.partitions| && st.partitions[p].phase.Sending? && st.partitions[p].phase.hold in st'.holds ==>
      st.partitions[p].phase.hold in st.holds
    ensures PartitionsOk(st')
  {
    forall p | 0 <= p < |st.partitions| ensures PartitionValid(st'.db, st'.now, st'.holds, st'.partitions[p]) {
      PartitionIsStable(st.db, st.now, st.holds, st'.db, st'.now, st'.holds, st.partitions[p]);
    }
  }

  lemma ChallengesOfRecordsStay(st: State, st': State)
    requires LogsValid(st.db.challenges, st.partitions) && ChallengesAdvance(st.db.challenges, st'.db.challenges)
    requires st'.partitions == st.partitions
    ensures LogsValid(st'.db.challenges, st'.partitions)
  {
    forall p, i | 0 <= p < |st.partitions|
      && 0 <= i < |st.partitions[p].log| ensures RecordValid(st'.db.challenges, st.partitions[p].log[i]) {
      assert RecordValid(st.db.challenges, st.partitions[p].log[i]);
    }
  }

  // ----- Account transactions -----

  lemma ResettledClock(
    accounts: Accounts, accounts': Accounts, settled: map<Subject, Time>, locked: set<Subject>, now: Time)
    requires ClockValid(accounts, settled, now) && AccountsAdvance(accounts, accounts')
    ensures ClockValid(accounts', Resettle(accounts', settled, locked, now), now)
    ensures forall s :: s in accounts ==> settled[s] <= Resettle(accounts', settled, locked, now)[s]
  {
  }

  lemma TransactKeepsTimes(st: State, tx: Tx)
    requires TablesOk(st) && Enabled(st, Transact(tx))
    ensures var st' := Apply(st, Transact(tx));
      IdleBounded(st'.db.sessions, st'.settled) && IssuedBefore(st'.db.challenges, st'.settled)
        && HashesDrawn(st'.db.accounts, st'.hashes)
  {
    var st' := Apply(st, Transact(tx));
    TransactionKeeps(st.db, st.settled, st.now, tx);
    TransactionIsPaced(st.db, st.settled, st.now, tx);
    IdleFollows(st.db, st'.db, st.settled, st'.settled, st.now, Locks(st.db, tx));
    IssueFollows(st.db, st'.db, st.settled, st'.settled, st.now, Locks(st.db, tx));
    HashesStayDrawn(st.db.accounts, st'.db.accounts, st.hashes, HashesOf(tx));
  }

  lemma HashesStayDrawn(accounts: Accounts, accounts': Accounts, hashes: set<PasswordHash>, drawn: set<PasswordHash>)
    requires HashesDrawn(accounts, hashes) && HashPaced(accounts, accounts', drawn)
    ensures HashesDrawn(accounts', hashes + drawn)
  {
  }

  lemma IdleFollows(
    db: Tables, db': Tables, settled: map<Subject, Time>, settled': map<Subject, Time>, now: Time,
    locked: set<Subject>)
    requires SessionsValid(db.accounts, db.sessions) && SessionsValid(db'.accounts, db'.sessions)
    requires SessionsAdvance(db.sessions, db'.sessions)
    requires SessionsPaced(db, db'.sessions, now, locked) && IdleBounded(db.sessions, settled)
    requires ClockValid(db.accounts, settled, now) && AccountsAdvance(db.accounts, db'.accounts)
    requires settled' == Resettle(db'.accounts, settled, locked, now)
    ensures IdleBounded(db'.sessions, settled')
  {
    ResettledClock(db.accounts, db'.accounts, settled, locked, now);
  }

  lemma IssueFollows(
    db: Tables, db': Tables, settled: map<Subject, Time>, settled': map<Subject, Time>, now: Time,
    locked: set<Subject>)
    requires ChallengesValid(db.accounts, db.challenges) && ChallengesValid(db'.accounts, db'.challenges)
    requires ChallengesAdvance(db.challenges, db'.challenges)
    requires IssuePaced(db, db'.challenges, settled, now, locked) && IssuedBefore(db.challenges, settled)
    requires ClockValid(db.accounts, settled, now) && AccountsAdvance(db.accounts, db'.accounts)
    requires settled' == Resettle(db'.accounts, settled, locked, now)
    ensures IssuedBefore(db'.challenges, settled')
  {
    ResettledClock(db.accounts, db'.accounts, settled, locked, now);
  }

  lemma TransactKeepsTables(st: State, tx: Tx)
    requires TablesOk(st) && Enabled(st, Transact(tx))
    ensures TablesOk(Apply(st, Transact(tx)))
  {
    var st' := Apply(st, Transact(tx));
    TransactKeepsTimes(st, tx);
    TransactionKeeps(st.db, st.settled, st.now, tx);
    TransactionIsPaced(st.db, st.settled, st.now, tx);
    ResettledClock(st.db.accounts, st'.db.accounts, st.settled, Locks(st.db, tx), st.now);
    PacedKeepsHourlyBound(st.db, st'.db.challenges, st.settled, st.now, Locks(st.db, tx));
    PacedKeepsDistance(st.db, st'.db.challenges, st.settled, st.now, Locks(st.db, tx));
  }

  lemma HoldsOutliveOthers(db: Tables, db': Tables, locked: set<Subject>, holds: map<HoldId, Hold>)
    requires HoldsValid(db, holds) && Frames(db, db', locked) && locked !! HeldSubjects(holds)
    ensures HoldsValid(db', holds)
  {
    forall h | h in holds ensures HoldValid(db', holds[h]) {
      assert HoldValid(db, holds[h]);
      assert holds[h].row.subject in HeldSubjects(holds);
    }
  }

  lemma TransactKeepsOutbox(st: State, tx: Tx)
    requires OutboxOk(st) && TablesOk(st) && Enabled(st, Transact(tx))
    ensures OutboxOk(Apply(st, Transact(tx)))
  {
    var st' := Apply(st, Transact(tx));
    TransactionKeeps(st.db, st.settled, st.now, tx);
    ChallengesOfRecordsStay(st, st');
    EventsStayOk(st.db, st'.db, st.relays, st.partitions, st.now);
  }

  lemma EventsStayOk(db: Tables, db': Tables, relays: map<Owner, Relay>, partitions: seq<Partition>, now: Time)
    requires EventsKept(db.challenges, db.events, db'.events)
    requires PublishedLogged(db.events, partitions) && RelaysValid(db.events, relays, partitions)
    requires LeasesBounded(db.events, now)
    ensures PublishedLogged(db'.events, partitions) && RelaysValid(db'.events, relays, partitions)
    ensures LeasesBounded(db'.events, now)
  {
  }

  lemma TransactKeeps(st: State, tx: Tx)
    requires Inv(st) && Enabled(st, Transact(tx))
    ensures Inv(Apply(st, Transact(tx)))
  {
    var st' := Apply(st, Transact(tx));
    TransactKeepsTables(st, tx);
    TransactKeepsOutbox(st, tx);
    TransactionKeeps(st.db, st.settled, st.now, tx);
    HoldsOutliveOthers(st.db, st'.db, Locks(st.db, tx), st.holds);
    PartitionsAreStable(st, st');
  }

  // ----- Clock and relay -----

  lemma TickKeeps(st: State, to: Time)
    requires Inv(st) && Enabled(st, Tick(to))
    ensures Inv(Apply(st, Tick(to)))
  {
    FollowsIsReflexive(st.db, {});
    PartitionsAreStable(st, Apply(st, Tick(to)));
  }

  // A statement of the relay changes one event row and nothing else.
  lemma EventStatementKeeps(st: State, e: EventId, ev: Event, relays: map<Owner, Relay>)
    requires Inv(st) && e in st.db.events && EventAdvances(st.db.events[e], ev)
    requires ev.publishedAt.Some? ==> Logged(st.partitions, ev.challenge)
    requires ev.claim.Some? ==> ev.claim.value.until <= st.now + LEASE
    requires RelaysValid(st.db.events, relays, st.partitions)
    ensures Inv(st.(db := st.db.(events := st.db.events[e := ev]), relays := relays))
  {
    var st' := st.(db := st.db.(events := st.db.events[e := ev]), relays := relays);
    EventRowKeeps(st.db, e, ev);
    HoldsOutliveOthers(st.db, st'.db, {}, st.holds);
    PartitionsAreStable(st, st');
    ChallengesOfRecordsStay(st, st');
  }

  lemma RelayStatementKeeps(st: State, a: Action)
    requires Inv(st) && Enabled(st, a) && (a.ClaimEvent? || a.MarkPublished? || a.Release? || a.CrashRelay?)
    ensures Inv(Apply(st, a))
  {
    hide Valid, TimesOk, HoldsValid, OneHoldPerAccount, PartitionsOk, LogsValid, Logged;
    var st' := Apply(st, a);
    var e := if a.ClaimEvent? then a.event else st.relays[a.owner].event;
    assert st'.db.events == st.db.events[e := st'.db.events[e]];
    EventStatementKeeps(st, e, st'.db.events[e], st'.relays);
    assert st' == st.(db := st.db.(events := st.db.events[e := st'.db.events[e]]), relays := st'.relays);
  }

  lemma LoggedGrows(partitions: seq<Partition>, p: nat, q: Partition, c: ChallengeId)
    requires p < |partitions| && partitions[p].log <= q.log
    ensures Logged(partitions, c) ==> Logged(partitions[p := q], c)
  {
    if Logged(partitions, c) {
      var r: nat, i: nat :| LoggedAt(partitions, c, r, i);
      assert LoggedAt(partitions[p := q], c, r, i);
    }
  }

  lemma AppendKeepsOutbox(st: State, o: Owner, p: nat)
    requires Inv(st) && Enabled(st, Append(o, p))
    ensures OutboxOk(Apply(st, Append(o, p)))
  {
    hide TimesOk, HoldsValid, OneHoldPerAccount, PartitionsOk;
    hide AccountsValid, SessionsValid, TokensValid, OneCurrent, DeliveriesValid, DeliveriesQueued, LinksValid;
    hide NoticesValid;
    var st' := Apply(st, Append(o, p));
    var e := st.relays[o].event;
    var c := st.db.events[e].challenge;
    assert LoggedAt(st'.partitions, c, p, |st.partitions[p].log|);
    forall d ensures Logged(st.partitions, d) ==> Logged(st'.partitions, d) {
      LoggedGrows(st.partitions, p, st'.partitions[p], d);
    }
    forall r, i | 0 <= r < |st'.partitions|
      && 0 <= i < |st'.partitions[r].log| ensures RecordValid(st'.db.challenges, st'.partitions[r].log[i]) {
      if i < |st.partitions[r].log| { assert RecordValid(st.db.challenges, st.partitions[r].log[i]); }
    }
  }

  lemma GrownIsValid(db: Tables, now: Time, holds: map<HoldId, Hold>, q: Partition, r: Record)
    requires PartitionValid(db, now, holds, q)
    ensures PartitionValid(db, now, holds, q.(log := q.log + [r]))
  {
    hide Settled;
    var q' := q.(log := q.log + [r]);
    assert forall i: nat :: i < q.position ==> q'.log[i] == q.log[i] && Pending(q', i) == Pending(q, i);
  }

  lemma AppendKeeps(st: State, o: Owner, p: nat)
    requires Inv(st) && Enabled(st, Append(o, p))
    ensures Inv(Apply(st, Append(o, p)))
  {
    hide Valid, TimesOk, HoldsValid, OneHoldPerAccount, OutboxOk, PartitionValid;
    hide Fits, Run, Locks, PurgeLocks, Resettle, BeginDelivery, FinishDelivery, RecordOf, HeldSubjects, Opens;
    AppendKeepsOutbox(st, o, p);
    var st' := Apply(st, Append(o, p));
    forall r | 0 <= r < |st'.partitions| ensures PartitionValid(st'.db, st'.now, st'.holds, st'.partitions[r]) {
      assert PartitionValid(st.db, st.now, st.holds, st.partitions[r]);
      if r == p { GrownIsValid(st.db, st.now, st.holds, st.partitions[p], RecordOf(st.db, st.relays[o].event)); }
    }
  }

  // ----- Consumers -----

  // A consumer step changes one partition's offsets and phase.
  lemma ConsumerKeeps(st: State, p: nat, q: Partition)
    requires Inv(st) && p < |st.partitions| && q.log == st.partitions[p].log
    requires PartitionValid(st.db, st.now, st.holds, q)
    ensures Inv(SetPartition(st, p, q))
  {
    var st' := SetPartition(st, p, q);
    forall d ensures Logged(st.partitions, d) ==> Logged(st'.partitions, d) {
      LoggedGrows(st.partitions, p, q, d);
    }
    forall r, i | 0 <= r < |st'.partitions|
      && 0 <= i < |st'.partitions[r].log| ensures RecordValid(st'.db.challenges, st'.partitions[r].log[i]) {
      assert RecordValid(st.db.challenges, st.partitions[r].log[i]);
    }
  }

  lemma ConsumerStepKeeps(st: State, a: Action)
    requires Inv(st) && Enabled(st, a) && (a.Poll? || a.Rewind? || a.CommitOffset? || a.Rebalance?)
    ensures Inv(Apply(st, a))
  {
    hide TablesOk, HoldsValid, OneHoldPerAccount, OutboxOk, Settled;
    var q, q' := st.partitions[a.p], Apply(st, a).partitions[a.p];
    assert PartitionValid(st.db, st.now, st.holds, q);
    forall i: nat | i < q'.position && !Pending(q', i) ensures Settled(st.db, st.now, q'.log[i].challenge) {
      assert i < q.position && !Pending(q, i);
    }
    ConsumerKeeps(st, a.p, q');
  }

  // ----- Deliveries -----

  // The material of challenges that are settled anyway may go, and the locks of `locked` are released.
  lemma ResettledIsOk(
    accounts: Accounts, sessions: Sessions, challenges: Challenges, settled: map<Subject, Time>,
    hashes: set<PasswordHash>, now: Time, locked: set<Subject>)
    requires TimesOk(accounts, sessions, challenges, settled, hashes, now)
    ensures TimesOk(accounts, sessions, challenges, Resettle(accounts, settled, locked, now), hashes, now)
  {
  }

  lemma DropKeepsTables(st: State, st': State, kept: Deliveries, locked: set<Subject>)
    requires TablesOk(st) && (forall id :: id in kept ==> id in st.db.deliveries && kept[id] == st.db.deliveries[id])
    requires st'.db == st.db.(deliveries := kept) && st'.now == st.now && st'.hashes == st.hashes
    requires st'.settled == Resettle(st.db.accounts, st.settled, locked, st.now)
    ensures TablesOk(st')
  {
    DropDeliveriesKeeps(st.db, kept);
    ResettledIsOk(st.db.accounts, st.db.sessions, st.db.challenges, st.settled, st.hashes, st.now, locked);
  }

  lemma DropKeepsHolds(db: Tables, kept: Deliveries, holds: map<HoldId, Hold>, left: map<HoldId, Hold>)
    requires HoldsValid(db, holds) && OneHoldPerAccount(holds)
    requires forall id :: id in kept ==> id in db.deliveries && kept[id] == db.deliveries[id]
    requires forall h :: h in left ==> h in holds && left[h] == holds[h] && left[h].challenge in kept
    ensures HoldsValid(db.(deliveries := kept), left) && OneHoldPerAccount(left)
  {
    forall h | h in left ensures HoldValid(db.(deliveries := kept), left[h]) && OnlyHold(left, h, left[h].row.subject) {
      assert HoldValid(db, holds[h]) && OnlyHold(holds, h, holds[h].row.subject);
    }
  }

  // The outbox invariant speaks of no delivery material.
  lemma OutboxStays(st: State, st': State)
    requires OutboxOk(st) && st'.db.challenges == st.db.challenges && st'.db.events == st.db.events
    requires st'.relays == st.relays && st'.partitions == st.partitions && st'.now == st.now
    ensures OutboxOk(st')
  {
  }

  lemma DropKeepsPartitions(st: State, st': State, kept: Deliveries)
    requires TablesOk(st) && PartitionsOk(st)
    requires (forall id :: id in kept ==> id in st.db.deliveries && kept[id] == st.db.deliveries[id])
    requires st'.db == st.db.(deliveries := kept) && st'.partitions == st.partitions && st'.now == st.now
    requires forall h :: h in st'.holds ==> h in st.holds && st'.holds[h] == st.holds[h]
    ensures PartitionsOk(st')
  {
    DropDeliveriesKeeps(st.db, kept);
    PartitionsAreStable(st, st');
  }

  lemma DropKeeps(st: State, st': State, kept: Deliveries, locked: set<Subject>)
    requires Inv(st) && (forall id :: id in kept ==> id in st.db.deliveries && kept[id] == st.db.deliveries[id])
    requires st'.db == st.db.(deliveries := kept) && st'.now == st.now && st'.hashes == st.hashes
    requires st'.settled == Resettle(st.db.accounts, st.settled, locked, st.now)
    requires st'.relays == st.relays && st'.partitions == st.partitions
    requires forall h :: h in st'.holds ==>
      h in st.holds && st'.holds[h] == st.holds[h] && st'.holds[h].challenge in kept
    ensures Inv(st')
  {
    hide TablesOk, HoldsValid, OutboxOk, PartitionsOk, OneHoldPerAccount;
    DropKeepsTables(st, st', kept, locked);
    DropKeepsHolds(st.db, kept, st.holds, st'.holds);
    OutboxStays(st, st');
    DropKeepsPartitions(st, st', kept);
  }

  lemma PurgeKeeps(st: State, locked: set<Subject>, at: Time)
    requires Inv(st) && Enabled(st, Purge(locked, at))
    ensures Inv(Apply(st, Purge(locked, at)))
  {
    var st' := Apply(st, Purge(locked, at));
    forall h | h in st.holds ensures st.holds[h].challenge in st'.db.deliveries {
      assert HoldValid(st.db, st.holds[h]) && st.holds[h].row.subject in HeldSubjects(st.holds);
    }
    DropKeeps(st, st', st'.db.deliveries, PurgeLocks(st.db, locked, at));
  }

  lemma ReleaseHoldKeeps(st: State, h: HoldId, kept: Deliveries)
    requires Inv(st) && h in st.holds
    requires (kept == st.db.deliveries || kept == st.db.deliveries - {st.holds[h].challenge})
    ensures Inv(st.(db := st.db.(deliveries := kept), holds := st.holds - {h},
      settled := Resettle(st.db.accounts, st.settled, {st.holds[h].row.subject}, st.now)))
  {
    var st' := st.(db := st.db.(deliveries := kept), holds := st.holds - {h},
      settled := Resettle(st.db.accounts, st.settled, {st.holds[h].row.subject}, st.now));
    forall k | k in st.holds && k != h ensures st.holds[k].challenge in kept {
      assert HoldValid(st.db, st.holds[k]) && HoldValid(st.db, st.holds[h]);
    }
    DropKeeps(st, st', kept, {st.holds[h].row.subject});
  }

  lemma AbortKeeps(st: State, h: HoldId)
    requires Inv(st) && Enabled(st, Abort(h))
    ensures Inv(Apply(st, Abort(h)))
  {
    ReleaseHoldKeeps(st, h, st.db.deliveries);
  }

  lemma FinishKeeps(st: State, h: HoldId, heardBy: Option<nat>)
    requires Inv(st) && Enabled(st, Finish(h, heardBy))
    ensures Inv(Apply(st, Finish(h, heardBy)))
  {
    ReleaseHoldKeeps(st, h, st.db.deliveries - {st.holds[h].challenge});
    var done := FinishDelivery(st, h, None);
    assert HoldValid(st.db, st.holds[h]);
    if heardBy.Some? {
      var p := heardBy.value;
      var q := st.partitions[p];
      assert PartitionValid(st.db, st.now, st.holds, q) && PartitionValid(done.db, done.now, done.holds, q);
      var q' := q.(phase := Handled(q.phase.index));
      forall i: nat | i < q'.position && !Pending(q', i) ensures Settled(done.db, done.now, q'.log[i].challenge) {
        if i != q.phase.index { assert !Pending(q, i); }
      }
      ConsumerKeeps(done, p, q');
    }
  }

  lemma SendKeeps(st: State, h: HoldId)
    requires Inv(st) && Enabled(st, Send(h))
    ensures Inv(Apply(st, Send(h)))
  {
    hide Valid, TimesOk, OutboxOk;
    var st' := Apply(st, Send(h));
    FollowsIsReflexive(st.db, {});
    OutboxStays(st, st');
    assert HoldValid(st.db, st.holds[h]);
    assert HoldsValid(st'.db, st'.holds);
    PartitionsAreStable(st, st');
  }

  lemma HandledKeeps(st: State, p: nat)
    requires Inv(st) && InPhase(st, p, true)
    requires Settled(st.db, st.now, st.partitions[p].log[st.partitions[p].phase.index].challenge)
    ensures Inv(SetPhase(st, p, Handled(st.partitions[p].phase.index)))
  {
    var q := st.partitions[p];
    assert PartitionValid(st.db, st.now, st.holds, q);
    var q' := q.(phase := Handled(q.phase.index));
    forall i: nat | i < q'.position && !Pending(q', i) ensures Settled(st.db, st.now, q'.log[i].challenge) {
      if i != q.phase.index { assert !Pending(q, i); }
    }
    ConsumerKeeps(st, p, q');
  }

  // A current delivery with material: the transaction stays open and holds the locks.
  lemma HoldKeeps(st: State, p: nat, h: HoldId, at: Time)
    requires Inv(st) && Enabled(st, Begin(p, h, at))
    requires var id := st.partitions[p].log[st.partitions[p].phase.index].challenge;
      && id in st.db.deliveries && st.db.challenges[id].subject in st.db.accounts
      && IsCurrentDelivery(st.db.accounts[st.db.challenges[id].subject], st.db.challenges[id], at)
    ensures var q := st.partitions[p]; var id := q.log[q.phase.index].challenge;
      Inv(SetPhase(st, p, Sending(q.phase.index, h)).(holds := st.holds[h :=
        Hold(id, st.db.accounts[st.db.challenges[id].subject], st.db.challenges[id], st.db.deliveries[id], at, false)]))
  {
    hide TimesOk, OutboxOk, Settled;
    hide AccountsValid, SessionsValid, TokensValid, OneCurrent, DeliveriesQueued, EventsValid, LinksValid, NoticesValid;
    var q := st.partitions[p];
    var id := q.log[q.phase.index].challenge;
    var hold := Hold(id, st.db.accounts[st.db.challenges[id].subject], st.db.challenges[id], st.db.deliveries[id], at,
      false);
    var held := st.(holds := st.holds[h := hold]);
    forall k | k in st.holds ensures st.holds[k].row.subject != hold.row.subject {
      assert st.holds[k].row.subject in HeldSubjects(st.holds);
    }
    FollowsIsReflexive(st.db, {});
    OutboxStays(st, held);
    PartitionsAreStable(st, held);
    assert HoldsValid(held.db, held.holds);
    assert PartitionValid(st.db, st.now, st.holds, q);
    var q' := q.(phase := Sending(q.phase.index, h));
    forall i: nat | i < q'.position && !Pending(q', i) ensures Settled(st.db, st.now, q'.log[i].challenge) {
      assert !Pending(q, i);
    }
    ConsumerKeeps(held, p, q');
  }

  lemma BeginKeeps(st: State, p: nat, h: HoldId, at: Time)
    requires Inv(st) && Enabled(st, Begin(p, h, at))
    ensures Inv(Apply(st, Begin(p, h, at)))
  {
    hide TimesOk, PartitionsOk, IsCurrentDelivery, Resettle;
    hide AccountsValid, SessionsValid, TokensValid, OneCurrent, DeliveriesQueued, EventsValid, LinksValid, NoticesValid;
    var q := st.partitions[p];
    var i := q.phase.index;
    var id := q.log[i].challenge;
    assert RecordValid(st.db.challenges, q.log[i]);
    var c := st.db.challenges[id];
    var a := st.db.accounts[c.subject];
    var released := st.(settled := Resettle(st.db.accounts, st.settled, {c.subject}, st.now));
    if !IsCurrentDelivery(a, c, at) {
      forall k | k in st.holds ensures st.holds[k].challenge in st.db.deliveries - {id} {
        assert HoldValid(st.db, st.holds[k]) && st.holds[k].row.subject in HeldSubjects(st.holds);
      }
      var dropped := released.(db := DeleteChallengeDelivery(st.db, id));
      DropKeeps(st, dropped, st.db.deliveries - {id}, {c.subject});
      HandledKeeps(dropped, p);
    } else if id !in st.db.deliveries {
      forall k | k in st.holds ensures st.holds[k].challenge in st.db.deliveries {
        assert HoldValid(st.db, st.holds[k]);
      }
      DropKeeps(st, released, st.db.deliveries, {c.subject});
      HandledKeeps(released, p);
    } else {
      HoldKeeps(st, p, h, at);
    }
  }

  // ----- All actions -----

  lemma WorkerStepKeeps(st: State, a: Action)
    requires Inv(st) && Enabled(st, a) && (a.Begin? || a.Send? || a.Finish? || a.Abort? || a.Purge?)
    ensures Inv(Apply(st, a))
  {
    if a.Begin? { BeginKeeps(st, a.p, a.hold, a.at); }
    if a.Send? { SendKeeps(st, a.hold); }
    if a.Finish? { FinishKeeps(st, a.hold, a.heardBy); }
    if a.Abort? { AbortKeeps(st, a.hold); }
    if a.Purge? { PurgeKeeps(st, a.locked, a.at); }
  }

  lemma StepKeeps(st: State, a: Action)
    requires Inv(st) && Enabled(st, a)
    ensures Inv(Apply(st, a))
  {
    if a.Tick? {
      TickKeeps(st, a.to);
    } else if a.Transact? {
      TransactKeeps(st, a.tx);
    } else if a.Begin? || a.Send? || a.Finish? || a.Abort? || a.Purge? {
      WorkerStepKeeps(st, a);
    } else if a.Poll? || a.Rewind? || a.CommitOffset? || a.Rebalance? {
      ConsumerStepKeeps(st, a);
    } else if a.Append? {
      AppendKeeps(st, a.owner, a.p);
    } else {
      RelayStatementKeeps(st, a);
    }
  }

  /** Every state of every run satisfies the invariant. */
  lemma {:induction false} RunKeeps(states: seq<State>, actions: seq<Action>, i: nat)
    requires IsRun(states, actions) && i < |states|
    ensures Inv(states[i])
  {
    if i == 0 {
      InitInv(states[0]);
    } else {
      RunKeeps(states, actions, i - 1);
      StepKeeps(states[i - 1], actions[i - 1]);
    }
  }
}
