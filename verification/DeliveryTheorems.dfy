/**
 The code delivery pipeline, for every run: nothing is lost, nothing is sent after
 its delivery committed, and every email carries the code of a current challenge to
 the address of its account.
 */
module DeliveryTheorems {
  import opened Options
  import opened Clock
  import opened Schema
  import opened Statements
  import opened Consistency
  import opened ChallengeCheck
  import opened Transactions
  import opened Effects
  import opened TransactionProofs
  import opened System
  import opened SystemInvariant
  import opened Runs

  // ----- Nothing is stuck -----

  predicate TerminalNow(db: Tables, now: Time, c: ChallengeId) {
    && c in db.challenges && db.challenges[c].subject in db.accounts
    && IsTerminal(db.accounts[db.challenges[c].subject], db.challenges[c], now)
  }

  // The code still has to reach its owner.
  predicate ToBeSent(st: State, c: ChallengeId) {
    c in st.db.deliveries && !TerminalNow(st.db, st.now, c)
  }

  predicate UnpublishedEvent(db: Tables, e: EventId, c: ChallengeId) {
    e in db.events && db.events[e].challenge == c && db.events[e].publishedAt.None?
  }

  // A record that the broker keeps for its consumer, and that a running consumer has yet to finish.
  predicate Waiting(partitions: seq<Partition>, c: ChallengeId, p: nat, i: nat) {
    && LoggedAt(partitions, c, p, i) && partitions[p].committed <= i
    && (partitions[p].position <= i || Pending(partitions[p], i))
  }

  lemma LoggedIsWaiting(st: State, c: ChallengeId, p: nat, i: nat)
    requires PartitionsOk(st) && ToBeSent(st, c) && LoggedAt(st.partitions, c, p, i)
    ensures Waiting(st.partitions, c, p, i)
  {
    var q := st.partitions[p];
    assert PartitionValid(st.db, st.now, st.holds, q);
    assert q.position <= i || Pending(q, i) || Settled(st.db, st.now, q.log[i].challenge);
  }

  /** In every reachable state a code that is still to be sent has an unpublished event or a waiting record. */
  lemma NothingIsStuck(states: seq<State>, actions: seq<Action>, n: nat, c: ChallengeId)
    requires IsRun(states, actions) && n < |states| && ToBeSent(states[n], c)
    ensures
      || (exists e :: UnpublishedEvent(states[n].db, e, c))
      || (exists p: nat, i: nat :: Waiting(states[n].partitions, c, p, i))
  {
    hide TimesOk, Advances;
    RunKeeps(states, actions, n);
    var st := states[n];
    assert HasEvent(st.db.events, c);
    var e :| e in st.db.events && st.db.events[e].challenge == c;
    if st.db.events[e].publishedAt.None? {
      assert UnpublishedEvent(st.db, e, c);
    } else {
      assert Logged(st.partitions, c);
      var p: nat, i: nat :| LoggedAt(st.partitions, c, p, i);
      LoggedIsWaiting(st, c, p, i);
    }
  }

  // ----- What a delivery transaction holds -----

  /** While a delivery is open, the rows that it read stay as they are, its material is there, and it opens. */
  lemma DeliveryPinsRows(states: seq<State>, actions: seq<Action>, n: nat, h: HoldId)
    requires IsRun(states, actions) && n < |states| && h in states[n].holds
    ensures var st, hold := states[n], states[n].holds[h];
      && HoldValid(st.db, hold) && Opens(hold) && hold.row.subject in st.db.accounts
      && hold.material == Seal(hold.challenge, hold.row) && hold.row.email == hold.account.email
      && hold.row.verifier == Verifier(hold.row.subject, hold.row.email, hold.row.purpose, hold.material.code)
      && ValidVerificationCode(hold.material.code) && Sendable(hold.account, hold.row, hold.beganAt)
  {
    hide TimesOk, OutboxOk, PartitionsOk;
    RunKeeps(states, actions, n);
    assert HoldValid(states[n].db, states[n].holds[h]);
  }

  /**
   A delivery begins to send exactly when the code of its record may be sent and still has its
   material. It drops the material of a code that may not be sent, and changes nothing else.
   */
  lemma BeginOutcome(st: State, p: nat, h: HoldId, at: Time)
    requires Inv(st) && Enabled(st, Begin(p, h, at))
    ensures var id := st.partitions[p].log[st.partitions[p].phase.index].challenge;
      && id in st.db.challenges && st.db.challenges[id].subject in st.db.accounts
      && var a, c, after := st.db.accounts[st.db.challenges[id].subject], st.db.challenges[id],
           BeginDelivery(st, p, h, at);
      && after.mail == st.mail
      && (if Sendable(a, c, at) then after.db == st.db else after.db == st.db.(deliveries := st.db.deliveries - {id}))
      && after.holds == if Sendable(a, c, at) && id in st.db.deliveries
                        then st.holds[h := Hold(id, a, c, st.db.deliveries[id], at, false)] else st.holds
  {
    RecordsAreKnown(st, p);
    var id := st.partitions[p].log[st.partitions[p].phase.index].challenge;
    CurrentIsSendable(st.db.accounts[st.db.challenges[id].subject], st.db.challenges[id], at);
    hide Inv, Resettle, IsCurrentDelivery, Sendable;
  }

  lemma RecordsAreKnown(st: State, p: nat)
    requires Inv(st) && InPhase(st, p, true) && WellIndexed(st.partitions[p])
    ensures var r := st.partitions[p].log[st.partitions[p].phase.index];
      && r.challenge in st.db.challenges && st.db.challenges[r.challenge].purpose == r.purpose
      && st.db.challenges[r.challenge].subject in st.db.accounts
  {
    hide TimesOk, HoldsValid, OneHoldPerAccount, PartitionsOk;
    assert RecordValid(st.db.challenges, st.partitions[p].log[st.partitions[p].phase.index]);
  }

  /** The purge deletes the material of exactly the codes that may not be sent, of accounts that are not locked. */
  lemma PurgeOutcome(db: Tables, locked: set<Subject>, at: Time, id: ChallengeId)
    requires Valid(db) && id in db.deliveries
    ensures id in db.challenges && db.challenges[id].subject in db.accounts
    ensures var after, a, c := PurgeTerminalDeliveries(db, locked, at), db.accounts[db.challenges[id].subject],
      db.challenges[id];
      && after == db.(deliveries := after.deliveries)
      && (id in after.deliveries <==> Sendable(a, c, at) || c.subject in locked)
      && (id in after.deliveries ==> after.deliveries[id] == db.deliveries[id])
  {
    hide AccountsValid, SessionsValid, TokensValid, OneCurrent, DeliveriesQueued, EventsValid, LinksValid, NoticesValid;
    CurrentIsSendable(db.accounts[db.challenges[id].subject], db.challenges[id], at);
    hide IsTerminal, Sendable;
  }

  /**
   The worker never meets a record whose purpose differs from its challenge's, and never a record without a
   challenge.
   */
  lemma RecordsMatch(states: seq<State>, actions: seq<Action>, n: nat, p: nat, i: nat)
    requires IsRun(states, actions) && n < |states| && p < |states[n].partitions| && i < |states[n].partitions[p].log|
    ensures var r := states[n].partitions[p].log[i];
      r.challenge in states[n].db.challenges && states[n].db.challenges[r.challenge].purpose == r.purpose
  {
    hide TablesOk, HoldsValid, OneHoldPerAccount, PartitionsOk;
    RunKeeps(states, actions, n);
    assert RecordValid(states[n].db.challenges, states[n].partitions[p].log[i]);
  }

  // ----- Material -----

  lemma TransactKeepsMaterial(st: State, tx: Tx, c: ChallengeId)
    requires TablesOk(st) && Enabled(st, Transact(tx)) && c in st.db.deliveries
    requires c !in After(Run(st.db, tx)).deliveries
    ensures c in After(Run(st.db, tx)).challenges && !Current(After(Run(st.db, tx)).challenges[c])
  {
    TransactionKeeps(st.db, st.settled, st.now, tx);
  }

  lemma BeginKeepsMaterial(st: State, p: nat, h: HoldId, at: Time, c: ChallengeId)
    requires Enabled(st, Begin(p, h, at)) && c in st.db.deliveries && c !in BeginDelivery(st, p, h, at).db.deliveries
    requires ClockValid(st.db.accounts, st.settled, st.now)
    ensures TerminalNow(BeginDelivery(st, p, h, at).db, st.now, c)
  {
    assert c == st.partitions[p].log[st.partitions[p].phase.index].challenge;
  }

  lemma PurgeKeepsMaterial(db: Tables, locked: set<Subject>, at: Time, now: Time, c: ChallengeId)
    requires at <= now && c in db.deliveries && c !in PurgeTerminalDeliveries(db, locked, at).deliveries
    ensures TerminalNow(PurgeTerminalDeliveries(db, locked, at), now, c)
  {
    assert Purgeable(db, c, at);
  }

  lemma OthersKeepMaterial(st: State, a: Action)
    requires Enabled(st, a) && !a.Transact? && !a.Begin? && !a.Purge? && !a.Finish?
    ensures Apply(st, a).db.deliveries == st.db.deliveries
  {
    hide Fits, Run, Locks, PurgeLocks, Resettle, RecordOf, HeldSubjects;
  }

  lemma FinishRemovesItsMaterial(st: State, h: HoldId, heardBy: Option<nat>, c: ChallengeId)
    requires Enabled(st, Finish(h, heardBy)) && c in st.db.deliveries
    requires c !in FinishDelivery(st, h, heardBy).db.deliveries
    ensures st.holds[h].challenge == c && st.holds[h].sent
  {
    hide Resettle;
  }

  lemma ClockOf(st: State)
    requires Inv(st)
    ensures Valid(st.db) && ClockValid(st.db.accounts, st.settled, st.now)
  {
    hide Valid, HoldsValid, OneHoldPerAccount, OutboxOk, PartitionsOk;
  }

  lemma SubjectsExist(st: State, a: Action)
    requires Inv(st) && Enabled(st, a)
    ensures ChallengesValid(Apply(st, a).db.accounts, Apply(st, a).db.challenges)
  {
    hide Enabled, Apply;
    StepKeeps(st, a);
  }

  lemma TransactionKeepsMaterial(st: State, a: Action, c: ChallengeId)
    requires Inv(st) && Enabled(st, a) && a.Transact? && c in st.db.deliveries && c !in Apply(st, a).db.deliveries
    ensures TerminalNow(Apply(st, a).db, Apply(st, a).now, c)
  {
    hide HoldsValid, OneHoldPerAccount, OutboxOk, PartitionsOk, TimesOk, Valid;
    SubjectsExist(st, a);
    TransactKeepsMaterial(st, a.tx, c);
  }

  lemma DeletionKeepsMaterial(st: State, a: Action, c: ChallengeId)
    requires Inv(st) && Enabled(st, a) && (a.Begin? || a.Purge?) && c in st.db.deliveries
    requires c !in Apply(st, a).db.deliveries
    ensures TerminalNow(Apply(st, a).db, Apply(st, a).now, c)
  {
    hide Inv, BeginDelivery, IsTerminal, PurgeTerminalDeliveries;
    ClockOf(st);
    if a.Begin? {
      BeginKeepsMaterial(st, a.p, a.hold, a.at, c);
      assert BeginDelivery(st, a.p, a.hold, a.at).now == st.now by { BeginKeepsNow(st, a.p, a.hold, a.at); }
    } else {
      PurgeKeepsMaterial(st.db, a.locked, a.at, st.now, c);
    }
  }

  lemma BeginKeepsNow(st: State, p: nat, h: HoldId, at: Time)
    requires InPhase(st, p, true) && WellIndexed(st.partitions[p])
    ensures BeginDelivery(st, p, h, at).now == st.now
  {
  }

  /** One step removes the material of a challenge only by finishing its delivery, or when nothing is left to send. */
  lemma StepKeepsMaterial(st: State, a: Action, c: ChallengeId)
    requires Inv(st) && Enabled(st, a) && c in st.db.deliveries && c !in Apply(st, a).db.deliveries
    ensures (a.Finish? && st.holds[a.hold].challenge == c && st.holds[a.hold].sent)
      || TerminalNow(Apply(st, a).db, Apply(st, a).now, c)
  {
    hide Inv, FinishDelivery, BeginDelivery, Run;
    if a.Transact? {
      TransactionKeepsMaterial(st, a, c);
    } else if a.Begin? || a.Purge? {
      DeletionKeepsMaterial(st, a, c);
    } else if a.Finish? {
      FinishRemovesItsMaterial(st, a.hold, a.heardBy, c);
    } else {
      OthersKeepMaterial(st, a);
    }
  }

  lemma HoldIsValid(st: State, h: HoldId)
    requires Inv(st) && h in st.holds
    ensures HoldValid(st.db, st.holds[h]) && ChallengesValid(st.db.accounts, st.db.challenges)
    ensures DeliveriesValid(st.db.accounts, st.db.challenges, st.db.deliveries)
  {
    hide TimesOk, OutboxOk, PartitionsOk, HoldValid;
  }

  lemma TerminalStays(states: seq<State>, actions: seq<Action>, i: nat, j: nat, c: ChallengeId)
    requires IsRun(states, actions) && i <= j < |states| && TerminalNow(states[i].db, states[i].now, c)
    ensures TerminalNow(states[j].db, states[j].now, c)
  {
    hide Apply, Enabled, Run, HoldsValid, OneHoldPerAccount, OutboxOk, PartitionsOk, TimesOk;
    RunAdvances(states, actions, i, j);
    var c', d' := states[i].db.challenges[c], states[j].db.challenges[c];
    TerminalIsStable(states[i].db.accounts[c'.subject], c', states[i].now, states[j].db.accounts[c'.subject], d',
      states[j].now);
  }

  // ----- Mail -----

  // The email carries the code of its challenge to the address of the challenge's account.
  predicate Carries(m: Mail, c: Challenge) {
    && m.purpose == c.purpose && m.address == c.email && ValidVerificationCode(m.code)
    && c.verifier == Verifier(c.subject, c.email, c.purpose, m.code)
  }

  predicate MailFor(db: Tables, m: Mail) {
    m.challenge in db.challenges && Carries(m, db.challenges[m.challenge])
  }

  ghost predicate Mailed(mail: seq<Mail>, c: ChallengeId) {
    exists k :: 0 <= k < |mail| && mail[k].challenge == c
  }

  ghost predicate MailOk(st: State) {
    && (forall k :: 0 <= k < |st.mail| ==> MailFor(st.db, st.mail[k]))
    && (forall h :: h in st.holds && st.holds[h].sent ==> Mailed(st.mail, st.holds[h].challenge))
  }

  lemma SendKeepsMail(st: State, h: HoldId)
    requires Enabled(st, Send(h)) && HoldValid(st.db, st.holds[h]) && MailOk(st)
    requires ChallengesValid(st.db.accounts, st.db.challenges)
    requires DeliveriesValid(st.db.accounts, st.db.challenges, st.db.deliveries)
    ensures MailOk(Apply(st, Send(h)))
  {
    var st' := Apply(st, Send(h));
    forall k | 0 <= k < |st'.mail| ensures MailFor(st'.db, st'.mail[k]) {
      if k < |st.mail| { assert MailFor(st.db, st.mail[k]); }
    }
    forall g | g in st'.holds && st'.holds[g].sent ensures Mailed(st'.mail, st'.holds[g].challenge) {
      if g == h {
        assert st'.mail[|st.mail|].challenge == st'.holds[h].challenge;
      } else {
        var k :| 0 <= k < |st.mail| && st.mail[k].challenge == st.holds[g].challenge;
        assert st'.mail[k].challenge == st'.holds[g].challenge;
      }
    }
  }

  lemma MailStays(st: State, st': State)
    requires MailOk(st) && Advances(st.db, st'.db) && st'.mail == st.mail
    requires forall h :: h in st'.holds && st'.holds[h].sent ==> h in st.holds && st'.holds[h] == st.holds[h]
    ensures MailOk(st')
  {
    hide AccountsAdvance, SessionsAdvance, TokensAdvance, DeliveriesAdvance, EventsAdvance, LinksAdvance, Mailed;
    forall k | 0 <= k < |st.mail| ensures MailFor(st'.db, st.mail[k]) {
      assert MailFor(st.db, st.mail[k]);
    }
  }

  lemma BeginSendsNothing(st: State, p: nat, h: HoldId, at: Time)
    requires InPhase(st, p, true) && WellIndexed(st.partitions[p]) && HoldUnused(st, h)
    ensures var st' := BeginDelivery(st, p, h, at);
      st'.mail == st.mail && forall k :: k in st'.holds && st'.holds[k].sent ==>
        k in st.holds && st'.holds[k] == st.holds[k]
  {
    hide Resettle, IsCurrentDelivery;
  }

  lemma OthersSendNothing(st: State, a: Action)
    requires Enabled(st, a) && !a.Send?
    ensures Apply(st, a).mail == st.mail
    ensures forall h :: h in Apply(st, a).holds && Apply(st, a).holds[h].sent ==>
      h in st.holds && Apply(st, a).holds[h] == st.holds[h]
  {
    hide Fits, Run, Locks, PurgeLocks, Resettle, RecordOf, HeldSubjects, BeginDelivery;
    if a.Begin? { BeginSendsNothing(st, a.p, a.hold, a.at); }
  }

  lemma {:induction false} MailIsRight(states: seq<State>, actions: seq<Action>, n: nat)
    requires IsRun(states, actions) && n < |states|
    ensures Inv(states[n]) && MailOk(states[n])
  {
    hide Inv, Apply, Enabled, Advances;
    RunKeeps(states, actions, n);
    if n > 0 {
      MailIsRight(states, actions, n - 1);
      var st, a := states[n - 1], actions[n - 1];
      if a.Send? {
        SendKeepsMailOk(st, a);
      } else {
        StepAdvances(st, a);
        OthersSendNothing(st, a);
        MailStays(st, states[n]);
      }
    }
  }

  lemma SendKeepsMailOk(st: State, a: Action)
    requires Inv(st) && Enabled(st, a) && a.Send? && MailOk(st)
    ensures MailOk(Apply(st, a))
  {
    hide Inv, MailOk;
    HoldIsValid(st, a.hold);
    SendKeepsMail(st, a.hold);
  }

  /** Every code that was ever sent is the code that its challenge accepts, sent to the account's own address. */
  lemma MailedCodeIsAccepted(states: seq<State>, actions: seq<Action>, n: nat, k: nat, appNow: Time)
    requires IsRun(states, actions) && n < |states| && k < |states[n].mail|
    ensures var m, db := states[n].mail[k], states[n].db;
      && m.challenge in db.challenges && db.challenges[m.challenge].subject in db.accounts
      && var c := db.challenges[m.challenge]; var a := db.accounts[c.subject];
      && m.address == a.email && m.purpose == c.purpose
      && forall code :: (OpenFor(c, a.email, appNow) && code == m.code) <==>
           Check(c, c.subject, a.email, c.purpose, code, appNow) == CodeAccepted
  {
    hide Apply, Enabled, TimesOk, OutboxOk, PartitionsOk, HoldsValid, OneHoldPerAccount;
    MailIsRight(states, actions, n);
    assert MailFor(states[n].db, states[n].mail[k]);
  }

  /** After the delivery of a challenge commits, no duplicate record and no redelivery sends its code again. */
  lemma NoSendAfterCommit(states: seq<State>, actions: seq<Action>, i: nat, j: nat)
    requires IsRun(states, actions) && i < j < |actions| && actions[i].Finish? && actions[j].Send?
    ensures actions[i].hold in states[i].holds && actions[j].hold in states[j].holds
    ensures states[j].holds[actions[j].hold].challenge != states[i].holds[actions[i].hold].challenge
  {
    hide Inv, Apply;
    RunKeeps(states, actions, i);
    RunKeeps(states, actions, j);
    assert Enabled(states[i], actions[i]) && Enabled(states[j], actions[j]);
    FinishedIsGone(states[i], actions[i].hold, actions[i].heardBy);
    HoldIsValid(states[j], actions[j].hold);
    MaterialStaysGone(states, actions, i + 1, j, states[i].holds[actions[i].hold].challenge);
  }

  lemma FinishedIsGone(st: State, h: HoldId, heardBy: Option<nat>)
    requires Inv(st) && Enabled(st, Finish(h, heardBy))
    ensures var c, st' := st.holds[h].challenge, Apply(st, Finish(h, heardBy));
      c in st'.db.challenges && c !in st'.db.deliveries
  {
    hide Inv, Resettle;
    HoldIsValid(st, h);
  }

  lemma MaterialStaysGone(states: seq<State>, actions: seq<Action>, i: nat, j: nat, c: ChallengeId)
    requires IsRun(states, actions) && i <= j < |states| && c in states[i].db.challenges
    requires c !in states[i].db.deliveries
    ensures c !in states[j].db.deliveries
  {
    hide Inv, Apply, Enabled;
    RunAdvances(states, actions, i, j);
  }

  predicate FinishesDelivery(st: State, a: Action, c: ChallengeId) {
    a.Finish? && a.hold in st.holds && st.holds[a.hold].challenge == c
  }

  /** The material of a challenge that may still be sent disappears only when a delivery that sent it commits. */
  lemma {:induction false} MaterialGoesBySending(
    states: seq<State>, actions: seq<Action>, i: nat, j: nat, c: ChallengeId)
    requires IsRun(states, actions) && i <= j < |states|
    requires c in states[i].db.deliveries && c !in states[j].db.deliveries
    requires !TerminalNow(states[j].db, states[j].now, c)
    ensures exists k :: i <= k < j && FinishesDelivery(states[k], actions[k], c) && Mailed(states[k].mail, c)
    decreases j - i
  {
    hide Inv, Apply, TerminalNow, Mailed;
    if c in states[i + 1].db.deliveries {
      MaterialGoesBySending(states, actions, i + 1, j, c);
    } else {
      MailIsRight(states, actions, i);
      if TerminalNow(states[i + 1].db, states[i + 1].now, c) { TerminalStays(states, actions, i + 1, j, c); }
      StepKeepsMaterial(states[i], actions[i], c);
    }
  }
}
