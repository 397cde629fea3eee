/**
 Password resets and the notices about them: the account machine and the notice queue
 side by side, with one clock.
 */
module ResetNotices {
  import opened Schema
  import opened Consistency
  import opened System
  import opened SystemInvariant
  import opened Runs
  import opened AccountTheorems
  import Notices = NoticeDelivery

  // A reset that commits queues its notice in the same transaction, and nothing else queues one.
  ghost predicate InStep(st: State, a: Action, s: Notices.Step) {
    && (s.Enqueue? <==> exists subject :: Resets(st, a, subject))
    && (s.Enqueue? ==>
          && Resets(st, a, s.subject) && s.notice == a.tx.notice && s.at == a.tx.writeAt
          && s.subject in st.db.accounts && s.email == st.db.accounts[s.subject].email)
  }

  /** Both machines: a step of only one of them is a Tick to the present of the other. */
  ghost predicate JointRun(
    states: seq<State>, actions: seq<Action>, queues: seq<Notices.Queue>, steps: seq<Notices.Step>)
  {
    && IsRun(states, actions) && Notices.IsRun(queues, steps) && |actions| == |steps|
    && (forall i :: 0 <= i < |actions| ==> InStep(states[i], actions[i], steps[i]))
    && (forall i :: 0 <= i <= |actions| ==> queues[i].now == states[i].now)
  }

  lemma ResetQueues(
    states: seq<State>, actions: seq<Action>, queues: seq<Notices.Queue>, steps: seq<Notices.Step>, i: nat, s: Subject)
    requires JointRun(states, actions, queues, steps) && i < |actions| && Resets(states[i], actions[i], s)
    ensures s in states[i].db.accounts && actions[i].tx.notice in queues[i + 1].queued
    ensures queues[i + 1].queued[actions[i].tx.notice] == states[i].db.accounts[s].email
  {
    assert InStep(states[i], actions[i], steps[i]) && steps[i].Enqueue? && steps[i].subject == s;
    assert queues[i + 1] == Notices.Apply(queues[i], steps[i]);
    hide IsRun, Resets, Notices.IsNextNotice;
  }

  /**
   In every run, once a reset has committed its notice is in the queue or was emailed, and
   every email of it goes to the address of the account that was reset.
   */
  lemma ResetIsNoticed(
    states: seq<State>, actions: seq<Action>, queues: seq<Notices.Queue>, steps: seq<Notices.Step>,
    i: nat, j: nat, s: Subject)
    requires JointRun(states, actions, queues, steps) && i < j < |states| && Resets(states[i], actions[i], s)
    ensures var n := actions[i].tx.notice;
      && (n in queues[j].notices || Notices.IsMailed(queues[j].mail, n))
      && s in states[j].db.accounts
      && forall k :: 0 <= k < |queues[j].mail| && queues[j].mail[k].notice == n ==>
           queues[j].mail[k].address == states[j].db.accounts[s].email
  {
    ResetQueues(states, actions, queues, steps, i, s);
    assert IsRun(states, actions) && Notices.IsRun(queues, steps) && |queues| == |states|;
    RunAdvances(states, actions, i, j);
    hide IsRun, Notices.IsRun, Resets, Inv, JointRun;
    hide SessionsAdvance, TokensAdvance, ChallengesAdvance, DeliveriesAdvance, EventsAdvance, LinksAdvance;
    Notices.QueuedStays(queues, steps, i + 1, j, actions[i].tx.notice);
    Notices.NoNoticeIsLost(queues, steps, j, actions[i].tx.notice);
  }

  // The reset at `i` queued the notice that the email carries, for the account with its address.
  ghost predicate NotifiesOf(st: State, a: Action, m: Notices.NoticeMail) {
    exists s :: Resets(st, a, s) && a.tx.notice == m.notice && s in st.db.accounts
      && st.db.accounts[s].email == m.address
  }

  /** Every notice email tells the account's own address of a reset that committed. */
  lemma NoticesTellOfResets(
    states: seq<State>, actions: seq<Action>, queues: seq<Notices.Queue>, steps: seq<Notices.Step>, j: nat, k: nat)
    requires JointRun(states, actions, queues, steps) && j < |states| && k < |queues[j].mail|
    ensures exists i :: 0 <= i < j && NotifiesOf(states[i], actions[i], queues[j].mail[k])
  {
    var m := queues[j].mail[k];
    hide IsRun, Resets;
    assert m.notice in queues[j].queued && m.address == queues[j].queued[m.notice] by {
      hide Notices.IsRun;
      Notices.RunKeeps(queues, steps, j);
    }
    Notices.QueuedByStep(queues, steps, j, m.notice);
    var i :| 0 <= i < j && steps[i].Enqueue? && steps[i].notice == m.notice
      && steps[i].email == queues[j].queued[m.notice];
    assert InStep(states[i], actions[i], steps[i]);
    assert NotifiesOf(states[i], actions[i], m);
  }
}
