/**
 The email worker and the outbox relay, step by step, with the outcomes of the mail
 server, the broker and COMMIT as inputs; and the agreement of their steps with the
 actions of System.
 */
module EmailWorker {
  import opened Options
  import opened Clock
  import opened Schema
  import opened Statements
  import opened Consistency
  import opened Database
  import opened System
  import opened SystemInvariant

  // ----- One delivery -----

  // What a delivery transaction does at its locks: commit at once, delete dead material, fail to open, or send this
  // email.
  datatype Step = Skip | Drop | Unopened | Deliver(mail: Mail)

  // The opener authenticates the challenge, purpose and subject; the worker compares the address.
  predicate OpensFor(m: Material, r: Record, subject: Subject, address: Email) {
    m.challenge == r.challenge && m.purpose == r.purpose && m.subject == subject && m.email == address
  }

  function StepOf(db: Tables, r: Record, at: Time): Step {
    if r.challenge !in db.challenges || db.challenges[r.challenge].subject !in db.accounts then Skip
    else
      var c := db.challenges[r.challenge];
      if c.purpose != r.purpose then Skip
      else if !IsCurrentDelivery(db.accounts[c.subject], c, at) then Drop
      else if r.challenge !in db.deliveries then Skip
      else if !OpensFor(db.deliveries[r.challenge], r, c.subject, db.accounts[c.subject].email) then Unopened
      else Deliver(Mail(r.challenge, c.purpose, db.deliveries[r.challenge].email, db.deliveries[r.challenge].code))
  }

  // A call to the mail server, the broker or COMMIT: it took effect and said so, took effect and seemed to fail, or
  // failed.
  datatype CallOutcome = Done | DoneUnheard | NotDone

  // At no time will a delivery of the record send anything.
  ghost predicate NothingToSend(db: Tables, r: Record) {
    forall at :: !StepOf(db, r, at).Deliver? && !StepOf(db, r, at).Unopened?
  }

  // One pass of the loop of Run: what the clock, the mail server, COMMIT and the broker do, and the rows that a
  // purge passes over.
  datatype Pass = Pass(at: Time, send: CallOutcome, commit: CallOutcome, offset: CallOutcome, purges: bool,
    locked: set<Subject>)

  class Worker {
    const store: Store
    // The broker's partition and the group's offset in it.
    var log: seq<Record>
    var committed: nat
    // The next record that this consumer polls.
    var position: nat
    // What the mail server took.
    var mail: seq<Mail>

    constructor (db: Store, records: seq<Record>, offset: nat)
      requires offset <= |records|
      ensures store == db && log == records && committed == offset && position == offset && mail == []
    {
      store, log, committed, position, mail := db, records, offset, offset, [];
    }

    method Send(m: Mail, outcome: CallOutcome) returns (heard: bool)
      modifies this`mail
      ensures heard == outcome.Done?
      ensures mail == if outcome.NotDone? then old(mail) else old(mail) + [m]
    {
      heard := outcome.Done?;
      if !outcome.NotDone? {
        mail := mail + [m];
      }
    }

    /** Sends under the row locks, then deletes the material and commits. A send that fails rolls back. */
    method WithCurrentDelivery(r: Record, at: Time, send: CallOutcome, commit: CallOutcome) returns (ok: bool)
      modifies this`mail, store
      ensures var db, step := old(store.Contents()), StepOf(old(store.Contents()), r, at);
        var reached := !step.Unopened? && (step.Deliver? ==> send.Done?);
        && ok == (reached && commit.Done?)
        && store.Contents() ==
            (if reached && !step.Skip?
              && !commit.NotDone? then Statements.DeleteChallengeDelivery(db, r.challenge) else db)
        && mail == (if step.Deliver? && !send.NotDone? then old(mail) + [step.mail] else old(mail))
    {
      var snapshot := store.Contents();
      if r.challenge !in store.challenges || store.challenges[r.challenge].subject !in store.accounts {
        return commit.Done?;
      }
      var c := store.challenges[r.challenge];
      var a := store.accounts[c.subject];
      if c.purpose != r.purpose {
        return commit.Done?;
      }
      if !IsCurrentDelivery(a, c, at) {
        var deleted := store.DeleteChallengeDelivery(r.challenge);
        if commit.NotDone? {
          store.Rollback(snapshot);
        }
        return commit.Done?;
      }
      if r.challenge !in store.deliveries {
        return commit.Done?;
      }
      var material := store.deliveries[r.challenge];
      if !OpensFor(material, r, c.subject, a.email) {
        return false;
      }
      var heard := Send(Mail(r.challenge, c.purpose, material.email, material.code), send);
      if !heard {
        return false;
      }
      var changed := store.DeleteChallengeDelivery(r.challenge);
      assert changed;
      if commit.NotDone? {
        store.Rollback(snapshot);
      }
      ok := commit.Done?;
    }

    /** Rewinds to the record when its delivery fails, and commits its offset otherwise. */
    method ProcessRecord(
      i: nat, at: Time, send: CallOutcome, commit: CallOutcome, offset: CallOutcome) returns (ok: bool)
      requires i < |log| && position == i + 1
      modifies this`mail, this`committed, this`position, store
      ensures var db, step := old(store.Contents()), StepOf(old(store.Contents()), log[i], at);
        var reached := !step.Unopened? && (step.Deliver? ==> send.Done?);
        && store.Contents() ==
            (if reached && !step.Skip?
              && !commit.NotDone? then Statements.DeleteChallengeDelivery(db, log[i].challenge) else db)
        && mail == (if step.Deliver? && !send.NotDone? then old(mail) + [step.mail] else old(mail))
        && position == (if reached && commit.Done? then i + 1 else i)
        && committed == (if reached && commit.Done? && !offset.NotDone? then i + 1 else old(committed))
        && ok == (reached && commit.Done? && offset.Done?)
    {
      var delivered := WithCurrentDelivery(log[i], at, send, commit);
      if !delivered {
        position := i;
        return false;
      }
      if !offset.NotDone? {
        committed := i + 1;
      }
      ok := offset.Done?;
    }

    /**
     Polls one record and processes it. The consumer's position passes a record only once nothing of it is left to
     send.
     */
    method RunOnce(
      at: Time, send: CallOutcome, commit: CallOutcome, offset: CallOutcome) returns (found: bool, ok: bool)
      requires position <= |log|
      modifies this`mail, this`committed, this`position, store
      ensures found == (old(position) < |log|) && old(position) <= position <= |log| && position <= old(position) + 1
      ensures ok ==> (found <==> position == old(position) + 1)
      ensures position != old(position) ==> NothingToSend(store.Contents(), log[old(position)])
      ensures committed == old(committed) || committed == position == old(position) + 1
      ensures OnlyMaterialGoes(old(store.Contents()), store.Contents())
      ensures old(mail) <= mail && |mail| <= |old(mail)| + 1
      ensures mail != old(mail) ==>
        found && StepOf(old(store.Contents()), log[old(position)], at) == Deliver(mail[|old(mail)|])
    {
      found := position < |log|;
      ok := true;
      if found {
        var i := position;
        position := position + 1;
        ok := ProcessRecord(i, at, send, commit, offset);
        if position == i + 1 {
          ProcessedIsDone(old(store.Contents()), log[i], at);
        }
      }
    }

    /** Polls and purges until a pass fails: every record that the consumer got past has nothing left to send. */
    method Run(passes: seq<Pass>) returns (failed: bool)
      requires committed <= position <= |log|
      modifies this`mail, this`committed, this`position, store
      ensures old(position) <= position <= |log| && old(committed) <= committed <= position
      ensures forall i :: old(position) <= i < position ==> NothingToSend(store.Contents(), log[i])
      ensures OnlyMaterialGoes(old(store.Contents()), store.Contents()) && old(mail) <= mail
      ensures !failed ==> position == if |log| - old(position) <= |passes| then |log| else old(position) + |passes|
    {
      for k := 0 to |passes|
        invariant old(position) <= position <= |log| && old(committed) <= committed <= position
        invariant forall i :: old(position) <= i < position ==> NothingToSend(store.Contents(), log[i])
        invariant OnlyMaterialGoes(old(store.Contents()), store.Contents()) && old(mail) <= mail
        invariant position == if |log| - old(position) <= k then |log| else old(position) + k
      {
        ghost var before, was := store.Contents(), position;
        if passes[k].purges {
          store.PurgeTerminal(passes[k].locked, passes[k].at);
        }
        var found, ok := RunOnce(passes[k].at, passes[k].send, passes[k].commit, passes[k].offset);
        forall i | old(position) <= i < was ensures NothingToSend(store.Contents(), log[i]) {
          DoneStays(before, store.Contents(), log[i]);
        }
        if !ok {
          return true;
        }
      }
      failed := false;
    }
  }

  predicate OnlyMaterialGoes(db: Tables, db': Tables) {
    db' == db.(deliveries := db'.deliveries) && forall id :: id in db'.deliveries ==>
      id in db.deliveries && db'.deliveries[id] == db.deliveries[id]
  }

  lemma ProcessedIsDone(db: Tables, r: Record, at: Time)
    ensures StepOf(db, r, at).Skip? ==> NothingToSend(db, r)
    ensures NothingToSend(DeleteChallengeDelivery(db, r.challenge), r)
  {
  }

  lemma DoneStays(db: Tables, db': Tables, r: Record)
    requires NothingToSend(db, r) && OnlyMaterialGoes(db, db')
    ensures NothingToSend(db', r)
  {
    forall at ensures !StepOf(db', r, at).Deliver? && !StepOf(db', r, at).Unopened? {
      assert !StepOf(db, r, at).Deliver? && !StepOf(db, r, at).Unopened?;
    }
  }

  /**
   A delivery step of the worker is the action of System at the same locks, and never fails to open in a reachable
   state.
   */
  lemma StepIsAction(st: State, p: nat, h: HoldId, at: Time)
    requires Inv(st) && Enabled(st, Begin(p, h, at))
    ensures var r := st.partitions[p].log[st.partitions[p].phase.index];
      var begun := BeginDelivery(st, p, h, at);
      match StepOf(st.db, r, at)
      case Skip =>
        begun.db == st.db && begun.holds == st.holds && begun.mail == st.mail && begun.partitions[p].phase.Handled?
      case Drop =>
        && begun.db == DeleteChallengeDelivery(st.db, r.challenge) && begun.holds == st.holds && begun.mail == st.mail
        && begun.partitions[p].phase.Handled?
      case Unopened => false
      case Deliver(m) =>
        && begun.db == st.db && h in begun.holds && Opens(begun.holds[h]) && begun.mail == st.mail
        && m == Mail(begun.holds[h].challenge, begun.holds[h].row.purpose, begun.holds[h].material.email,
             begun.holds[h].material.code)
  {
    hide TimesOk, HoldsValid, OneHoldPerAccount, OutboxOk, PartitionsOk, Resettle, IsCurrentDelivery;
    hide AccountsValid, SessionsValid, TokensValid, OneCurrent, DeliveriesQueued, EventsValid, LinksValid, NoticesValid;
    var r := st.partitions[p].log[st.partitions[p].phase.index];
    if r.challenge in st.db.deliveries {
      assert st.db.deliveries[r.challenge] == Seal(r.challenge, st.db.challenges[r.challenge]);
    }
  }

  // ----- A pass of the worker as a run of the system -----

  // The partition after the record at its position was handled and its offset committed.
  function PassedBy(q: Partition): Partition
    requires q.phase.Fetched?
  {
    q.(committed := q.phase.index + 1, position := q.phase.index + 1, phase := Idle)
  }

  lemma FetchedIsAhead(st: State, p: nat)
    requires Inv(st) && InPhase(st, p, true)
    ensures st.partitions[p].position == st.partitions[p].phase.index + 1
  {
    hide TablesOk, HoldsValid, OneHoldPerAccount, OutboxOk, Settled;
    assert PartitionValid(st.db, st.now, st.holds, st.partitions[p]);
  }

  lemma BeginStep(st: State, p: nat, h: HoldId, at: Time)
    requires Enabled(st, Begin(p, h, at))
    ensures InPhase(st, p, true) && WellIndexed(st.partitions[p])
    ensures Apply(st, Begin(p, h, at)) == BeginDelivery(st, p, h, at)
  {
    hide BeginDelivery;
  }

  // What a delivery that sends finds and holds when it begins.
  lemma BeginsToSend(st: State, p: nat, h: HoldId, at: Time)
    requires Inv(st) && Enabled(st, Begin(p, h, at))
    requires StepOf(st.db, st.partitions[p].log[st.partitions[p].phase.index], at).Deliver?
    ensures var begun, i := Apply(st, Begin(p, h, at)), st.partitions[p].phase.index;
      && InPhase(st, p, true) && st.partitions[p].position == i + 1 && i < |st.partitions[p].log|
      && begun.db == st.db && begun.mail == st.mail
      && begun.partitions == st.partitions[p := st.partitions[p].(phase := Sending(i, h))]
      && h !in st.holds && h in begun.holds && begun.holds == st.holds[h := begun.holds[h]]
      && var hold := begun.holds[h];
      && !hold.sent && Opens(hold) && hold.challenge == st.partitions[p].log[i].challenge
      && StepOf(st.db, st.partitions[p].log[i], at).mail ==
           Mail(hold.challenge, hold.row.purpose, hold.material.email, hold.material.code)
  {
    BeginStep(st, p, h, at);
    StepIsAction(st, p, h, at);
    FetchedIsAhead(st, p);
    BeganToSend(st, p, h, at);
    hide Inv, Opens, BeginDelivery, StepOf, Enabled, Apply;
  }

  lemma SendStep(st: State, h: HoldId)
    requires h in st.holds && !st.holds[h].sent && Opens(st.holds[h])
    ensures Enabled(st, Send(h))
    ensures var hold := st.holds[h];
      Apply(st, Send(h)) == st.(
        holds := st.holds[h := hold.(sent := true)],
        mail := st.mail + [Mail(hold.challenge, hold.row.purpose, hold.material.email, hold.material.code)])
  {
    hide Opens;
  }

  lemma FinishStep(st: State, h: HoldId, p: nat)
    requires h in st.holds && st.holds[h].sent && p < |st.partitions|
    requires st.partitions[p].phase.Sending? && st.partitions[p].phase.hold == h
    ensures Enabled(st, Finish(h, Some(p)))
    ensures var end := Apply(st, Finish(h, Some(p)));
      && end.db == DeleteChallengeDelivery(st.db, st.holds[h].challenge) && end.holds == st.holds - {h}
      && end.mail == st.mail
      && end.partitions == st.partitions[p := st.partitions[p].(phase := Handled(st.partitions[p].phase.index))]
  {
    hide Resettle;
  }

  lemma OffsetStep(st: State, p: nat)
    requires p < |st.partitions| && st.partitions[p].phase.Handled?
    ensures Enabled(st, CommitOffset(p, true))
    ensures var q := st.partitions[p];
      Apply(st, CommitOffset(p, true)) ==
        st.(partitions := st.partitions[p := q.(committed := q.phase.index + 1, phase := Idle)])
  {
  }

  lemma AbortStep(st: State, h: HoldId)
    requires h in st.holds
    ensures Enabled(st, Abort(h))
    ensures var end := Apply(st, Abort(h));
      end.db == st.db && end.holds == st.holds - {h} && end.mail == st.mail && end.partitions == st.partitions
  {
    hide Resettle;
  }

  lemma RewindStep(st: State, p: nat)
    requires p < |st.partitions| && st.partitions[p].phase.Sending?
    requires st.partitions[p].phase.index < |st.partitions[p].log|
    ensures Enabled(st, Rewind(p))
    ensures var q, end := st.partitions[p], Apply(st, Rewind(p));
      && end == st.(partitions := st.partitions[p := q.(position := q.phase.index, phase := Idle)])
      && Enabled(end, Poll(p))
      && Apply(end, Poll(p)) ==
           end.(partitions := st.partitions[p := q.(position := q.phase.index + 1, phase := Fetched(q.phase.index))])
  {
  }

  /** A pass that sends is a run of the system: it leaves the email, no material and the offset after the record. */
  lemma SendingPassIsRun(st: State, p: nat, h: HoldId, at: Time)
    requires Inv(st) && Enabled(st, Begin(p, h, at))
    requires StepOf(st.db, st.partitions[p].log[st.partitions[p].phase.index], at).Deliver?
    ensures var begun := Apply(st, Begin(p, h, at));
      && Enabled(begun, Send(h)) && Enabled(Apply(begun, Send(h)), Finish(h, Some(p)))
      && var finished := Apply(Apply(begun, Send(h)), Finish(h, Some(p)));
      && Enabled(finished, CommitOffset(p, true))
      && var r, end := st.partitions[p].log[st.partitions[p].phase.index], Apply(finished, CommitOffset(p, true));
      && end.mail == st.mail + [StepOf(st.db, r, at).mail] && end.db == DeleteChallengeDelivery(st.db, r.challenge)
      && end.holds == st.holds && end.partitions == st.partitions[p := PassedBy(st.partitions[p])]
  {
    hide Inv, Opens, StepOf, Enabled, Apply, DeleteChallengeDelivery;
    BeginsToSend(st, p, h, at);
    var begun := Apply(st, Begin(p, h, at));
    SendStep(begun, h);
    FinishStep(Apply(begun, Send(h)), h, p);
    OffsetStep(Apply(Apply(begun, Send(h)), Finish(h, Some(p))), p);
  }

  lemma BeganToSend(st: State, p: nat, h: HoldId, at: Time)
    requires Enabled(st, Begin(p, h, at)) && h in BeginDelivery(st, p, h, at).holds
    ensures var begun, i := BeginDelivery(st, p, h, at), st.partitions[p].phase.index;
      && h !in st.holds && begun.holds == st.holds[h := begun.holds[h]] && !begun.holds[h].sent
      && begun.holds[h].challenge == st.partitions[p].log[i].challenge
      && begun.partitions == st.partitions[p := st.partitions[p].(phase := Sending(i, h))] && begun.db == st.db
  {
    hide Resettle, IsCurrentDelivery;
  }

  /** A pass whose record needs no sending is a run of the system that sends nothing and moves the offset on. */
  lemma SkippingPassIsRun(st: State, p: nat, h: HoldId, at: Time)
    requires Inv(st) && Enabled(st, Begin(p, h, at))
    requires !StepOf(st.db, st.partitions[p].log[st.partitions[p].phase.index], at).Deliver?
    ensures var begun := Apply(st, Begin(p, h, at));
      && Enabled(begun, CommitOffset(p, true))
      && var end := Apply(begun, CommitOffset(p, true));
      && end.mail == st.mail && end.holds == st.holds
      && end.partitions == st.partitions[p := PassedBy(st.partitions[p])]
  {
    StepIsAction(st, p, h, at);
    FetchedIsAhead(st, p);
    BeganToSkip(st, p, h, at);
    hide Inv, IsCurrentDelivery, BeginDelivery, StepOf, Enabled, Apply;
    BeginStep(st, p, h, at);
    OffsetStep(Apply(st, Begin(p, h, at)), p);
  }

  lemma BeganToSkip(st: State, p: nat, h: HoldId, at: Time)
    requires Enabled(st, Begin(p, h, at)) && BeginDelivery(st, p, h, at).holds == st.holds
    ensures BeginDelivery(st, p, h, at).partitions ==
      st.partitions[p := st.partitions[p].(phase := Handled(st.partitions[p].phase.index))]
  {
    hide Resettle, IsCurrentDelivery;
  }

  /** A pass whose send fails is a run of the system that leaves the tables, and polls the record again. */
  lemma FailingPassIsRun(st: State, p: nat, h: HoldId, at: Time)
    requires Inv(st) && Enabled(st, Begin(p, h, at))
    requires StepOf(st.db, st.partitions[p].log[st.partitions[p].phase.index], at).Deliver?
    ensures var begun := Apply(st, Begin(p, h, at));
      && Enabled(begun, Abort(h)) && Enabled(Apply(begun, Abort(h)), Rewind(p))
      && var end, i := Apply(Apply(begun, Abort(h)), Rewind(p)), st.partitions[p].phase.index;
      && end.db == st.db && end.holds == st.holds && end.mail == st.mail
      && end.partitions == st.partitions[p := st.partitions[p].(position := i, phase := Idle)]
      && Enabled(end, Poll(p)) && Apply(end, Poll(p)).partitions == st.partitions
  {
    hide Inv, Opens, StepOf, Enabled, Apply, DeleteChallengeDelivery;
    BeginsToSend(st, p, h, at);
    var begun := Apply(st, Begin(p, h, at));
    AbortStep(begun, h);
    RewindStep(Apply(begun, Abort(h)), p);
  }

  // ----- The relay -----

  class Relay {
    const store: Store
    const owner: Owner
    var log: seq<Record>

    constructor (db: Store, o: Owner)
      ensures store == db && owner == o && log == []
    {
      store, owner, log := db, o, [];
    }

    /**
     Claims the next due event, appends it, and marks it published or releases it. A failed publish may still have
     landed.
     */
    method RunOnce(claimAt: Time, published: bool, landed: bool, appNow: Time, at: Time) returns (found: bool, ok: bool)
      requires published ==> landed
      modifies this`log, store
      ensures !found ==>
        ok && store.Contents() == old(store.Contents()) && log == old(log) && forall e :: e in store.events ==>
          !Due(store.events[e], claimAt)
      ensures found ==> exists e ::
        && IsNext(old(store.events), e, claimAt)
        && log == (if landed then old(log) + [RecordOf(old(store.Contents()), e)] else old(log))
        && var claimed := ClaimOutboxEvent(old(store.Contents()), e, owner, claimAt);
        && ok == (published && at < claimAt + LEASE)
        && store.Contents() ==
            (if published
              then MarkOutboxPublished(claimed, e, owner, at)
                else ReleaseOutboxClaim(claimed, e, owner, appNow + SECOND, at))
    {
      var claimed := store.ClaimOutboxEvent(owner, claimAt);
      if claimed.None? {
        return false, true;
      }
      var e := claimed.value;
      if landed {
        log := log + [RecordOf(store.Contents(), e)];
      }
      found := true;
      if !published {
        var released := store.ReleaseOutboxClaim(e, owner, appNow + SECOND, at);
        ok := false;
      } else {
        // No changed row means that the lease ran out: the event will be published again.
        ok := store.MarkOutboxPublished(e, owner, at);
      }
    }
  }

  lemma ClaimStep(st: State, o: Owner, e: EventId, at: Time)
    requires Enabled(st, ClaimEvent(o, e, at))
    ensures o !in st.relays && e in st.db.events
    ensures Apply(st, ClaimEvent(o, e, at)) ==
      st.(db := ClaimOutboxEvent(st.db, e, o, at), relays := st.relays[o := System.Relay(e, false)])
  {
    hide ClaimOutboxEvent;
  }

  lemma AppendStep(st: State, o: Owner, p: nat)
    requires o in st.relays && p < |st.partitions| && st.relays[o].event in st.db.events
    ensures Enabled(st, Append(o, p))
    ensures var q := st.partitions[p];
      Apply(st, Append(o, p)) == st.(
        partitions := st.partitions[p := q.(log := q.log + [RecordOf(st.db, st.relays[o].event)])],
        relays := st.relays[o := st.relays[o].(appended := true)])
  {
    hide RecordOf;
  }

  lemma MarkStep(st: State, o: Owner, at: Time)
    requires o in st.relays && st.relays[o].appended && at <= st.now
    ensures Enabled(st, MarkPublished(o, at))
    ensures Apply(st, MarkPublished(o, at)) ==
      st.(db := MarkOutboxPublished(st.db, st.relays[o].event, o, at), relays := st.relays - {o})
  {
    hide MarkOutboxPublished;
  }

  lemma ReleaseStep(st: State, o: Owner, next: Time, at: Time)
    requires o in st.relays && at <= st.now
    ensures Enabled(st, Release(o, next, at))
    ensures Apply(st, Release(o, next, at)) ==
      st.(db := ReleaseOutboxClaim(st.db, st.relays[o].event, o, next, at), relays := st.relays - {o})
  {
    hide ReleaseOutboxClaim;
  }

  // A claim keeps what the record of an event is made of.
  lemma ClaimKeepsRecord(db: Tables, e: EventId, owner: Owner, at: Time)
    requires e in db.events
    ensures e in ClaimOutboxEvent(db, e, owner, at).events
    ensures RecordOf(ClaimOutboxEvent(db, e, owner, at), e) == RecordOf(db, e)
  {
  }

  /** A pass of the relay is a run of the system: claim, append, and mark or release. */
  lemma RelayPassIsRun(st: State, o: Owner, e: EventId, p: nat, claimAt: Time, next: Time, at: Time)
    requires Inv(st) && Enabled(st, ClaimEvent(o, e, claimAt)) && p < |st.partitions| && at <= st.now
    ensures var claimed := Apply(st, ClaimEvent(o, e, claimAt));
      && Enabled(claimed, Append(o, p)) && Enabled(claimed, Release(o, next, at))
      && var appended := Apply(claimed, Append(o, p));
      && Enabled(appended, MarkPublished(o, at))
      && var marked, released := Apply(appended, MarkPublished(o, at)), Apply(claimed, Release(o, next, at));
      && marked.db == MarkOutboxPublished(ClaimOutboxEvent(st.db, e, o, claimAt), e, o, at)
      && marked.partitions ==
           st.partitions[p := st.partitions[p].(log := st.partitions[p].log + [RecordOf(st.db, e)])]
      && released.db == ReleaseOutboxClaim(ClaimOutboxEvent(st.db, e, o, claimAt), e, o, next, at)
      && released.partitions == st.partitions && marked.relays == st.relays == released.relays
  {
    hide Inv, Enabled, Apply, ClaimOutboxEvent, MarkOutboxPublished, ReleaseOutboxClaim, RecordOf;
    ClaimStep(st, o, e, claimAt);
    ClaimKeepsRecord(st.db, e, o, claimAt);
    var claimed := Apply(st, ClaimEvent(o, e, claimAt));
    AppendStep(claimed, o, p);
    MarkStep(Apply(claimed, Append(o, p)), o, at);
    ReleaseStep(claimed, o, next, at);
  }
}
