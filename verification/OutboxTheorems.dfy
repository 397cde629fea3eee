/** The leased outbox relay: published events were appended, leases expire, and a failing event starves no other. */
module OutboxTheorems {
  import opened Options
  import opened Clock
  import opened Schema
  import opened Statements
  import opened Consistency
  import opened Transactions
  import opened TransactionProofs
  import opened System
  import opened SystemInvariant
  import opened Runs
  import opened QueueTimes
  import AccountTheorems
  import Framing

  /** An event marked published was appended to the broker, and the mark is never taken back. */
  lemma PublishedWasAppended(states: seq<State>, actions: seq<Action>, i: nat, j: nat, e: EventId)
    requires IsRun(states, actions) && i <= j < |states| && e in states[i].db.events
    requires states[i].db.events[e].publishedAt.Some?
    ensures Logged(states[i].partitions, states[i].db.events[e].challenge)
    ensures e in states[j].db.events && states[j].db.events[e].publishedAt == states[i].db.events[e].publishedAt
  {
    hide Enabled, Apply, Valid, TimesOk, HoldsValid, OneHoldPerAccount, PartitionsOk, Logged;
    hide AccountsAdvance, SessionsAdvance, TokensAdvance, ChallengesAdvance, DeliveriesAdvance, LinksAdvance;
    RunAdvances(states, actions, i, j);
  }

  /**
   Whatever its owner does or fails to do, an unpublished event is due again after 30 seconds, or at its next
   attempt.
   */
  lemma LeaseExpires(states: seq<State>, actions: seq<Action>, n: nat, e: EventId, t: Time)
    requires IsRun(states, actions) && n < |states| && e in states[n].db.events
    requires states[n].db.events[e].publishedAt.None?
    requires states[n].now + 30 * SECOND <= t && states[n].db.events[e].nextAttemptAt <= t
    ensures Due(states[n].db.events[e], t)
  {
    hide Enabled, Apply, Valid, TimesOk, HoldsValid, OneHoldPerAccount, PartitionsOk, LogsValid, PublishedLogged;
    hide RelaysValid;
    RunKeeps(states, actions, n);
  }

  /**
   A claim of a due event lasts exactly 30 seconds: until then its owner holds it, and from then on it is due again.
   */
  lemma ClaimLasts(db: Tables, e: EventId, owner: Owner, at: Time, t: Time)
    requires e in db.events && Due(db.events[e], at)
    ensures var after := ClaimOutboxEvent(db, e, owner, at);
      && after == db.(events := db.events[e := after.events[e]])
      && (HoldsClaim(after, e, owner, t) <==> t < at + 30 * SECOND)
      && (Due(after.events[e], t) <==> at + 30 * SECOND <= t && db.events[e].nextAttemptAt <= t)
  {
  }

  /** An event that was appended is published exactly when its mark comes within 30 seconds of its claim. */
  lemma ClaimThenMark(db: Tables, e: EventId, owner: Owner, at: Time, t: Time)
    requires e in db.events && Due(db.events[e], at)
    ensures var claimed := ClaimOutboxEvent(db, e, owner, at);
      MarkOutboxPublished(claimed, e, owner, t) ==
        if t < at + 30 * SECOND then db.(events := db.events[e := db.events[e].(publishedAt := Some(t), claim := None)])
        else claimed
  {
  }

  /** A failed event counts the failure and waits for its next attempt exactly when its release comes in time. */
  lemma ClaimThenRelease(db: Tables, e: EventId, owner: Owner, at: Time, next: Time, t: Time)
    requires e in db.events && Due(db.events[e], at)
    ensures var claimed, row := ClaimOutboxEvent(db, e, owner, at), db.events[e];
      ReleaseOutboxClaim(claimed, e, owner, next, t) ==
        if t < at + 30 * SECOND then
          db.(events := db.events[e := row.(attemptCount := row.attemptCount + 1, nextAttemptAt := next,
            claim := None)])
        else claimed
    ensures db.events[e].publishedAt.None?
  {
  }

  /** While one owner's claim lives, no other owner can claim the event, mark it or release it. */
  lemma ClaimExcludesOthers(db: Tables, e: EventId, owner: Owner, other: Owner, now: Time, next: Time)
    requires HoldsClaim(db, e, owner, now) && other != owner
    ensures ClaimOutboxEvent(db, e, other, now) == db
    ensures MarkOutboxPublished(db, e, other, now) == db && ReleaseOutboxClaim(db, e, other, next, now) == db
  {
  }

  // ----- Order -----

  // The unpublished events that the relay may try before `f`.
  function Ahead(events: Events, f: EventId): set<EventId>
    requires f in events
  {
    set e | e in events && e != f && events[e].publishedAt.None? && NoLater(events[e], events[f])
  }

  lemma NextIsAhead(db: Tables, e: EventId, f: EventId, now: Time)
    requires IsNext(db.events, e, now) && f in db.events && Due(db.events[f], now)
    ensures e == f || e in Ahead(db.events, f)
  {
  }

  /** Publishing an event leaves one event fewer ahead of a waiting one. */
  lemma PublishingMovesOn(db: Tables, e: EventId, f: EventId, owner: Owner, now: Time)
    requires HoldsClaim(db, e, owner, now) && f in db.events && e in Ahead(db.events, f)
    ensures Ahead(MarkOutboxPublished(db, e, owner, now).events, f) == Ahead(db.events, f) - {e}
  {
  }

  /**
   A failed publish is released with the next attempt one second after the application's
   clock. Unless that clock is a second or more behind the database's, the event moves
   behind every event whose time has come, claimed by another relay or not.
   */
  lemma FailingEventGoesBehind(db: Tables, e: EventId, f: EventId, owner: Owner, appNow: Time, now: Time)
    requires HoldsClaim(db, e, owner, now) && f in db.events && f != e && now < appNow + SECOND
    requires db.events[f].publishedAt.None? && db.events[f].nextAttemptAt <= now
    ensures Ahead(ReleaseOutboxClaim(db, e, owner, appNow + SECOND, now).events, f) == Ahead(db.events, f) - {e}
  {
  }

  // ----- A slow clock -----

  // The last action of the run releases event `e` after a publish that failed, and `e` is the next one again while
  // `f` waits.
  ghost predicate Starves(
    states: seq<State>, actions: seq<Action>, e: EventId, f: EventId, appNow: Time, now: Time)
  {
    && IsRun(states, actions) && actions != [] && actions[|actions| - 1].Release?
    && var st, a, st' := states[|actions| - 1], actions[|actions| - 1], states[|actions|];
    && a.nextAttemptAt == appNow + SECOND && a.at == now == st.now
    && a.owner in st.relays && st.relays[a.owner] == Relay(e, false) && HoldsClaim(st.db, e, a.owner, now)
    && f != e && f in st'.db.events && Due(st'.db.events[f], now) && IsNext(st'.db.events, e, now)
  }

  lemma {:induction false} OnlySlowClocksStarve(
    states: seq<State>, actions: seq<Action>, e: EventId, f: EventId, appNow: Time, now: Time)
    requires Starves(states, actions, e, f, appNow, now)
    ensures appNow + SECOND <= now
  {
    ReleaseOf(states, actions);
    hide IsRun;
  }

  lemma ReleaseOf(states: seq<State>, actions: seq<Action>)
    requires IsRun(states, actions) && actions != [] && actions[|actions| - 1].Release?
    ensures var st, a := states[|actions| - 1], actions[|actions| - 1];
      && a.owner in st.relays
      && states[|actions|].db == ReleaseOutboxClaim(st.db, st.relays[a.owner].event, a.owner, a.nextAttemptAt, a.at)
  {
    var n := |actions| - 1;
    assert Enabled(states[n], actions[n]) && states[n + 1] == Apply(states[n], actions[n]);
  }

  function EmailOf(k: nat): Email { Email(Framing.Decimal(k), "example.org") }

  // A sign-up of the run below, with all statements at time `t`.
  function Visitor(k: nat, t: Time): Tx {
    SignUp(k, EmailOf(k), k, NewSession(k, k, t), NewCode(k, "000000", k, t, t, t))
  }

  // Nothing in the state was drawn by visitor `k`.
  ghost predicate Unknown(st: State, k: nat) {
    && k !in st.db.accounts && k !in st.db.sessions && k !in st.db.challenges && k !in st.db.events && k !in st.hashes
    && TokenUnused(st.db, k) && forall s :: !IsActive(st.db.accounts, s, EmailOf(k))
  }

  // The sign-up of visitor `k` leads from one state to the other, and leaves any other visitor unknown.
  ghost predicate SignedUp(st: State, st': State, k: nat, t: Time) {
    && st'.db.events == st.db.events[k := Event(k, t, t, 0, None, None)] && st'.now == st.now && st'.relays == st.relays
    && forall l: nat :: l != k && Unknown(st, l) ==> Unknown(st', l)
  }

  lemma VisitorTables(db: Tables, k: nat, t: Time)
    requires forall s :: !IsActive(db.accounts, s, EmailOf(k))
    ensures var db' := After(RunSignUp(db, Visitor(k, t)));
      && db'.accounts == db.accounts[k := Account(EmailOf(k), Some(k), None, None)]
      && db'.sessions == InsertSession(db, k, k, k, t).sessions && db'.rotated == db.rotated
      && db'.challenges.Keys == db.challenges.Keys + {k} && db'.events == db.events[k := Event(k, t, t, 0, None, None)]
  {
    hide EmailOf;
  }

  lemma OthersStayUnknown(st: State, st': State, k: nat, l: nat, t: Time)
    requires Unknown(st, l) && l != k && EmailOf(l) != EmailOf(k)
    requires st'.db.accounts == st.db.accounts[k := Account(EmailOf(k), Some(k), None, None)]
    requires st'.db.sessions == InsertSession(st.db, k, k, k, t).sessions && st'.db.rotated == st.db.rotated
    requires st'.db.challenges.Keys == st.db.challenges.Keys + {k} && st'.db.events.Keys == st.db.events.Keys + {k}
    requires st'.hashes == st.hashes + {k}
    ensures Unknown(st', l)
  {
    hide EmailOf;
    forall s ensures !IsActive(st'.db.accounts, s, EmailOf(l)) {
      if s != k { assert !IsActive(st.db.accounts, s, EmailOf(l)); }
    }
  }

  lemma VisitorIsEnabled(st: State, k: nat, t: Time)
    requires Unknown(st, k) && t <= st.now
    ensures Enabled(st, Transact(Visitor(k, t)))
  {
    hide EmailOf, IsActive;
  }

  lemma VisitorSignsUp(st: State, k: nat, t: Time)
    requires Unknown(st, k) && t <= st.now
    ensures Enabled(st, Transact(Visitor(k, t))) && SignedUp(st, Apply(st, Transact(Visitor(k, t))), k, t)
  {
    VisitorIsEnabled(st, k, t);
    VisitorTables(st.db, k, t);
    var st' := Apply(st, Transact(Visitor(k, t)));
    assert st'.db == After(RunSignUp(st.db, Visitor(k, t))) && st'.hashes == st.hashes + {k};
    hide RunSignUp, Enabled, Apply, EmailOf, Unknown;
    forall l: nat | l != k && Unknown(st, l) ensures Unknown(st', l) {
      Framing.DecimalIsValue(k);
      Framing.DecimalIsValue(l);
      assert EmailOf(l) != EmailOf(k) by { EmailsDiffer(k, l); }
      OthersStayUnknown(st, st', k, l, t);
    }
  }

  lemma EmailsDiffer(k: nat, l: nat)
    requires k != l
    ensures EmailOf(k) != EmailOf(l)
  {
    Framing.DecimalIsValue(k);
    Framing.DecimalIsValue(l);
  }

  // The relay claims the event of visitor 1, and a second passes.
  lemma ClaimAndWait(st: State, now: Time)
    requires st.now <= now && st.relays == map[] && 1 in st.db.events
    requires st.db.events[1] == Event(1, st.now, st.now, 0, None, None)
    ensures Enabled(st, ClaimEvent(0, 1, st.now)) && Enabled(Apply(st, ClaimEvent(0, 1, st.now)), Tick(now))
    ensures var st' := Apply(Apply(st, ClaimEvent(0, 1, st.now)), Tick(now));
      && st'.db == st.db.(events := st.db.events[1 := Event(1, st.now, st.now, 0, Some(Claim(0, st.now + LEASE)),
           None)])
      && st'.now == now && st'.relays == map[0 := Relay(1, false)] && st'.hashes == st.hashes
  {
  }

  lemma ReleaseAgain(st: State, appNow: Time)
    requires st.relays == map[0 := Relay(1, false)] && appNow + SECOND <= st.now
    requires st.db.events ==
      map[1 := Event(1, st.now - SECOND, st.now - SECOND, 0, Some(Claim(0, st.now - SECOND + LEASE)), None),
                                 2 := Event(2, st.now, st.now, 0, None, None)]
    ensures HoldsClaim(st.db, 1, 0, st.now) && Enabled(st, Release(0, appNow + SECOND, st.now))
    ensures var events := Apply(st, Release(0, appNow + SECOND, st.now)).db.events;
      2 in events && Due(events[2], st.now) && IsNext(events, 1, st.now)
  {
  }

  lemma StillUnknown(st: State, st': State, k: nat)
    requires Unknown(st, k) && st'.db == st.db.(events := st'.db.events) && st'.db.events.Keys == st.db.events.Keys
    requires st'.hashes == st.hashes
    ensures Unknown(st', k)
  {
    hide EmailOf, IsActive;
  }

  function Empty(now: Time): State {
    State(EMPTY, now, map[], {}, map[], map[], [], [])
  }

  lemma EmptyIsInit(now: Time)
    ensures Init(Empty(now)) && forall k: nat :: Unknown(Empty(now), k)
  {
  }

  // A run of sign-up, claim, and another sign-up while the publish of the claimed event fails.
  lemma SlowRun(appNow: Time, now: Time) returns (states: seq<State>, actions: seq<Action>)
    requires appNow + SECOND <= now
    ensures Starves(states, actions, 1, 2, appNow, now)
  {
    hide Unknown, Visitor, Enabled, Apply, HoldsClaim, Due, IsNext, Init, IsRun;
    var early := now - SECOND;
    var st0 := Empty(early);
    EmptyIsInit(early);
    VisitorSignsUp(st0, 1, early);
    var first, claim, second := Transact(Visitor(1, early)), ClaimEvent(0, 1, early), Transact(Visitor(2, now));
    var st1 := Apply(st0, first);
    ClaimAndWait(st1, now);
    var st2 := Apply(st1, claim);
    var st3 := Apply(st2, Tick(now));
    StillUnknown(st1, st3, 2);
    VisitorSignsUp(st3, 2, now);
    var st4 := Apply(st3, second);
    ReleaseAgain(st4, appNow);
    var release := Release(0, appNow + SECOND, now);
    states := [st0, st1, st2, st3, st4, Apply(st4, release)];
    actions := [first, claim, Tick(now), second, release];
    FiveSteps(states, actions);
  }

  lemma FiveSteps(states: seq<State>, actions: seq<Action>)
    requires |states| == 6 && |actions| == 5 && Init(states[0])
    requires Enabled(states[0], actions[0]) && states[1] == Apply(states[0], actions[0])
    requires Enabled(states[1], actions[1]) && states[2] == Apply(states[1], actions[1])
    requires Enabled(states[2], actions[2]) && states[3] == Apply(states[2], actions[2])
    requires Enabled(states[3], actions[3]) && states[4] == Apply(states[3], actions[3])
    requires Enabled(states[4], actions[4]) && states[5] == Apply(states[4], actions[4])
    ensures IsRun(states, actions)
  {
    hide Enabled, Apply, Init;
  }

  /**
   With a clock a second or more behind, and only then, a run lets a failing event be next again while another waits.
   */
  lemma SlowClockStarves(appNow: Time, now: Time)
    ensures (exists states, actions, e, f :: Starves(states, actions, e, f, appNow, now)) <==> appNow + SECOND <= now
  {
    hide Starves;
    if appNow + SECOND <= now {
      var states, actions := SlowRun(appNow, now);
    }
    forall states, actions, e, f | Starves(states, actions, e, f, appNow, now) ensures appNow + SECOND <= now {
      OnlySlowClocksStarve(states, actions, e, f, appNow, now);
    }
  }

  // ----- Nothing starves -----

  // The event waits in both states: neither published nor released between them.
  predicate Waits(events: Events, events': Events, f: EventId) {
    && f in events && f in events' && events[f].publishedAt.None? && events'[f].publishedAt.None?
    && events'[f].nextAttemptAt == events[f].nextAttemptAt && events'[f].createdAt == events[f].createdAt
  }

  // Conditions on the clocks alone: codes are queued after `since`, and an event whose publish failed is released
  // after `since` with a
  // next attempt, the application's clock plus a second, that the database's clock has not reached.
  predicate ClocksAllow(a: Action, since: Time) {
    && (a.Transact? && QueueTime(a.tx).Some? ==> since < QueueTime(a.tx).value)
    && (a.Release? ==> since <= a.at < a.nextAttemptAt)
  }

  // The relay is done with an event that was ahead: it published or released it under a live claim.
  predicate Resolves(st: State, a: Action, f: EventId) {
    && (a.MarkPublished? || a.Release?) && a.owner in st.relays && f in st.db.events
    && st.relays[a.owner].event in Ahead(st.db.events, f) && HoldsClaim(st.db, st.relays[a.owner].event, a.owner, a.at)
  }

  lemma TransactionQueues(st: State, a: Action)
    requires Inv(st) && Enabled(st, a) && a.Transact?
    ensures EventsKept(st.db.challenges, st.db.events, Apply(st, a).db.events)
  {
    hide Valid, TimesOk, HoldsValid, OneHoldPerAccount, OutboxOk, PartitionsOk, Run, Fits, Locks, Advances, Frames;
    hide MaterialKept;
    TransactionFollows(st, a.tx);
  }

  lemma TransactionFollows(st: State, tx: Tx)
    requires TablesOk(st) && Enabled(st, Transact(tx))
    ensures Follows(st.db, After(Run(st.db, tx)), Locks(st.db, tx))
  {
    hide Follows;
    TransactionKeeps(st.db, st.settled, st.now, tx);
  }

  lemma OthersKeepEvents(st: State, a: Action)
    requires Enabled(st, a) && !a.Transact? && !a.ClaimEvent? && !a.MarkPublished? && !a.Release?
    ensures Apply(st, a).db.events == st.db.events
  {
    hide Fits, Run, Locks, PurgeLocks, Resettle, RecordOf, HeldSubjects, BeginDelivery, FinishDelivery;
    hide PurgeTerminalDeliveries;
    if a.Begin? {
      BeginKeepsEvents(st, a.p, a.hold, a.at);
    } else if a.Finish? {
      FinishKeepsEvents(st, a.hold, a.heardBy);
    } else if a.Purge? {
      AccountTheorems.PurgeKeepsOtherTables(st.db, a.locked, a.at);
    }
  }

  lemma BeginKeepsEvents(st: State, p: nat, h: HoldId, at: Time)
    requires InPhase(st, p, true) && WellIndexed(st.partitions[p])
    ensures BeginDelivery(st, p, h, at).db.events == st.db.events
  {
    hide Resettle, IsCurrentDelivery;
  }

  lemma FinishKeepsEvents(st: State, h: HoldId, heardBy: Option<nat>)
    requires h in st.holds
    requires heardBy.Some? ==> heardBy.value < |st.partitions| && st.partitions[heardBy.value].phase.Sending?
    ensures FinishDelivery(st, h, heardBy).db.events == st.db.events
  {
    hide Resettle;
  }

  lemma TransactionQueuesBehind(st: State, a: Action, f: EventId, since: Time)
    requires Inv(st) && Enabled(st, a) && a.Transact? && ClocksAllow(a, since)
    requires f in st.db.events && st.db.events[f].nextAttemptAt <= since
    ensures f in Apply(st, a).db.events && Ahead(Apply(st, a).db.events, f) <= Ahead(st.db.events, f)
  {
    TransactionQueues(st, a);
    TransactionQueuedAt(st.db, a.tx);
    hide Inv, Enabled, Run;
    var events' := Apply(st, a).db.events;
    forall e | e in Ahead(events', f) ensures e in Ahead(st.db.events, f) {
      assert e in st.db.events;
    }
  }

  lemma ReleaseGoesBehind(db: Tables, e: EventId, f: EventId, owner: Owner, next: Time, at: Time)
    requires f in db.events && db.events[f].publishedAt.None? && db.events[f].nextAttemptAt <= at < next && f != e
    ensures Ahead(ReleaseOutboxClaim(db, e, owner, next, at).events, f) ==
      if HoldsClaim(db, e, owner, at) then Ahead(db.events, f) - {e} else Ahead(db.events, f)
  {
    if HoldsClaim(db, e, owner, at) { FailingEventGoesBehind(db, e, f, owner, next - SECOND, at); }
  }

  // A claim keeps the order, and a mark takes the event out of it.
  lemma ClaimsKeepOrder(db: Tables, e: EventId, f: EventId, owner: Owner, at: Time)
    requires f in db.events
    ensures Ahead(ClaimOutboxEvent(db, e, owner, at).events, f) == Ahead(db.events, f)
    ensures f != e ==>
      Ahead(MarkOutboxPublished(db, e, owner, at).events, f) ==
      if HoldsClaim(db, e, owner, at) then Ahead(db.events, f) - {e} else Ahead(db.events, f)
  {
  }

  // The waiting event is not the one that is published or released.
  lemma RelayResolvesAnother(st: State, a: Action, f: EventId)
    requires Enabled(st, a) && (a.MarkPublished? || a.Release?) && Waits(st.db.events, Apply(st, a).db.events, f)
    requires a.Release? ==> st.db.events[f].nextAttemptAt != a.nextAttemptAt
    ensures a.owner in st.relays
    ensures HoldsClaim(st.db, st.relays[a.owner].event, a.owner, a.at) ==> st.relays[a.owner].event != f
  {
    hide Fits, Run, Locks, PurgeLocks, Resettle, RecordOf, HeldSubjects, BeginDelivery, FinishDelivery;
    hide PurgeTerminalDeliveries;
  }

  lemma RelayShrinks(st: State, a: Action, f: EventId, since: Time)
    requires Enabled(st, a) && (a.ClaimEvent? || a.MarkPublished? || a.Release?)
    requires Waits(st.db.events, Apply(st, a).db.events, f)
    requires ClocksAllow(a, since) && st.db.events[f].nextAttemptAt <= since
    ensures Ahead(Apply(st, a).db.events, f) <=
      if Resolves(st, a, f) then Ahead(st.db.events, f) - {st.relays[a.owner].event} else Ahead(st.db.events, f)
  {
    hide Ahead, HoldsClaim, Fits, Run, Locks, PurgeLocks, Resettle, RecordOf, HeldSubjects;
    hide BeginDelivery, FinishDelivery, PurgeTerminalDeliveries;
    if a.ClaimEvent? {
      ClaimsKeepOrder(st.db, a.event, f, a.owner, a.at);
    } else {
      RelayResolvesAnother(st, a, f);
      var e := st.relays[a.owner].event;
      if e != f {
        ClaimsKeepOrder(st.db, e, f, a.owner, a.at);
        if a.Release? { ReleaseGoesBehind(st.db, e, f, a.owner, a.nextAttemptAt, a.at); }
      }
    }
  }

  // What an action leaves ahead of a waiting event.
  lemma AheadShrinks(st: State, a: Action, f: EventId, since: Time)
    requires Inv(st) && Enabled(st, a) && Waits(st.db.events, Apply(st, a).db.events, f)
    requires ClocksAllow(a, since) && st.db.events[f].nextAttemptAt <= since
    ensures Ahead(Apply(st, a).db.events, f) <=
      if Resolves(st, a, f) then Ahead(st.db.events, f) - {st.relays[a.owner].event} else Ahead(st.db.events, f)
  {
    hide Inv, Enabled, Apply, Ahead;
    if a.Transact? {
      TransactionQueuesBehind(st, a, f, since);
    } else if a.ClaimEvent? || a.MarkPublished? || a.Release? {
      RelayShrinks(st, a, f, since);
    } else {
      OthersKeepEvents(st, a);
    }
  }

  // From state `i` on the event waits, and the clocks of every action allow it.
  ghost predicate WaitsThrough(states: seq<State>, actions: seq<Action>, i: nat, j: nat, f: EventId, since: Time) {
    && |states| == |actions| + 1 && i <= j < |states|
    && f in states[i].db.events && states[i].db.events[f].nextAttemptAt <= since
    && forall k :: i <= k < j ==>
         Waits(states[k].db.events, states[k + 1].db.events, f) && ClocksAllow(actions[k], since)
  }

  /** How many events ahead of `f` the relays were done with between two states. */
  function Resolved(states: seq<State>, actions: seq<Action>, i: nat, j: nat, f: EventId): nat
    requires i <= j <= |actions| <= |states|
    decreases j
  {
    if i == j then 0 else Resolved(states, actions, i, j - 1, f) + if Resolves(states[j - 1], actions[j - 1], f)
      then 1 else 0
  }

  /**
   While an event waits that is due at `since`, and the clocks put the codes that are queued and the events
   that fail from then on behind it, the relays can be done with at most as many events before it as were
   ahead of it; each time one fewer is left.
   */
  lemma {:induction false} WaitingIsBounded(
    states: seq<State>, actions: seq<Action>, i: nat, j: nat, f: EventId, since: Time)
    requires IsRun(states, actions) && WaitsThrough(states, actions, i, j, f, since)
    ensures f in states[j].db.events && states[j].db.events[f].nextAttemptAt <= since
    ensures Resolved(states, actions, i, j, f) + |Ahead(states[j].db.events, f)| <= |Ahead(states[i].db.events, f)|
    decreases j
  {
    hide Inv, Enabled, Apply, Ahead, ClocksAllow;
    if i < j {
      WaitingIsBounded(states, actions, i, j - 1, f, since);
      RunKeeps(states, actions, j - 1);
      assert Waits(states[j - 1].db.events, states[j].db.events, f) && ClocksAllow(actions[j - 1], since);
      AheadShrinks(states[j - 1], actions[j - 1], f, since);
      var before, after := Ahead(states[j - 1].db.events, f), Ahead(states[j].db.events, f);
      if Resolves(states[j - 1], actions[j - 1], f) {
        Smaller(after, before - {states[j - 1].relays[actions[j - 1].owner].event});
      } else {
        Smaller(after, before);
      }
    }
  }

  lemma {:induction false} Smaller(a: set<EventId>, b: set<EventId>)
    requires a <= b
    ensures |a| <= |b|
  {
    assert b == a + (b - a);
  }
}
