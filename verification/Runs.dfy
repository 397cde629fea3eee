/** What carries over from one state of a run to every later one. */
module Runs {
  import opened Schema
  import opened Statements
  import opened Consistency
  import opened Transactions
  import opened TransactionProofs
  import opened System
  import opened SystemInvariant

  lemma WorkerStepAdvances(st: State, a: Action)
    requires Valid(st.db) && Enabled(st, a) && (a.Begin? || a.Finish? || a.Purge?)
    ensures Advances(st.db, Apply(st, a).db)
  {
    hide Valid, Advances, Resettle, IsCurrentDelivery, Purgeable, Fits, Run, Locks, PurgeLocks, RecordOf;
    hide HeldSubjects, Opens;
    ReflexiveAdvance(st.db);
    DropDeliveriesKeeps(st.db, Apply(st, a).db.deliveries);
  }

  // A statement of the relay changes at most the row of one event.
  lemma EventStepAdvances(db: Tables, db': Tables, e: EventId)
    requires Valid(db) && e in db.events && e in db'.events && EventAdvances(db.events[e], db'.events[e])
    requires db' == db.(events := db.events[e := db'.events[e]])
    ensures Advances(db, db')
  {
    EventRowKeeps(db, e, db'.events[e]);
  }

  lemma RelayStepAdvances(st: State, a: Action)
    requires Inv(st) && Enabled(st, a) && (a.ClaimEvent? || a.MarkPublished? || a.Release?)
    ensures Advances(st.db, Apply(st, a).db)
  {
    hide Fits, Run, Locks, PurgeLocks, Resettle, BeginDelivery, FinishDelivery, RecordOf, HeldSubjects, Opens;
    hide Valid, Advances, TimesOk, HoldsValid, OneHoldPerAccount, PartitionsOk, LogsValid, PublishedLogged;
    hide LeasesBounded, Logged;
    var st' := Apply(st, a);
    var e := if a.ClaimEvent? then a.event else st.relays[a.owner].event;
    assert st'.db == st.db.(events := st.db.events[e := st'.db.events[e]]);
    EventStepAdvances(st.db, st'.db, e);
  }

  lemma StepAdvances(st: State, a: Action)
    requires Inv(st) && Enabled(st, a)
    ensures Advances(st.db, Apply(st, a).db) && st.now <= Apply(st, a).now && st.hashes <= Apply(st, a).hashes
  {
    hide Fits, Run, Locks, PurgeLocks, Resettle, RecordOf, HeldSubjects, Opens, IsCurrentDelivery;
    hide Advances, HoldsValid, OneHoldPerAccount, OutboxOk, PartitionsOk, TimesOk;
    if a.Transact? {
      TransactStepAdvances(st, a.tx);
    } else if a.Begin? || a.Finish? || a.Purge? {
      WorkerStepAdvances(st, a);
    } else if a.ClaimEvent? || a.MarkPublished? || a.Release? {
      RelayStepAdvances(st, a);
    } else {
      ReflexiveAdvance(st.db);
    }
  }

  lemma TransactStepAdvances(st: State, tx: Tx)
    requires TablesOk(st) && Enabled(st, Transact(tx))
    ensures Advances(st.db, After(Run(st.db, tx)))
  {
    TransactionKeeps(st.db, st.settled, st.now, tx);
  }

  /** Later tables advance earlier ones, and neither the clock nor the set of drawn hashes goes back. */
  lemma {:induction false} RunAdvances(states: seq<State>, actions: seq<Action>, i: nat, j: nat)
    requires IsRun(states, actions) && i <= j < |states|
    ensures Inv(states[i]) && Inv(states[j])
    ensures Advances(states[i].db, states[j].db) && states[i].now <= states[j].now
    ensures states[i].hashes <= states[j].hashes
    decreases j - i
  {
    hide Inv, Advances;
    RunKeeps(states, actions, i);
    RunKeeps(states, actions, j);
    if i == j {
      ReflexiveAdvance(states[i].db);
    } else {
      RunAdvances(states, actions, i, j - 1);
      StepAdvances(states[j - 1], actions[j - 1]);
      AdvancesIsTransitive(states[i].db, states[j - 1].db, states[j].db);
    }
  }

  lemma ReflexiveAdvance(db: Tables)
    ensures Advances(db, db)
  {
    FollowsIsReflexive(db, {});
  }
}
