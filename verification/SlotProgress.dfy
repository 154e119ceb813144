/** What the processing slot can do: an operation on a healthy child is carried out and the slot comes back; after a deadline
  * or a crash the child is replaced and the slot comes back. */
module SlotProgress {
  import opened Wrappers
  import opened Slot
  import opened SlotSafety
  import SlotTheorems

  ghost predicate Path(states: seq<Service>, actions: seq<Action>) {
    |states| == |actions| + 1
    && forall i | 0 <= i < |actions| :: Enabled(states[i], actions[i]) && states[i + 1] == Effect(states[i], actions[i])
  }

  /** Some steps lead from one state to the other. */
  ghost predicate Leads(s: Service, s': Service) {
    exists states, actions :: Path(states, actions) && states[0] == s && states[|states| - 1] == s'
  }

  lemma LeadsSelf(s: Service)
    ensures Leads(s, s)
  {
    var states, actions: seq<Action> := [s], [];
    assert Path(states, actions);
  }

  lemma LeadsOn(s: Service, mid: Service, a: Action)
    requires Leads(s, mid) && Enabled(mid, a)
    ensures Leads(s, Effect(mid, a))
  {
    hide Enabled, Effect;
    var states, actions :| Path(states, actions) && states[0] == s && states[|states| - 1] == mid;
    var states', actions' := states + [Effect(mid, a)], actions + [a];
    forall i | 0 <= i < |actions'| ensures Enabled(states'[i], actions'[i]) && states'[i + 1] == Effect(states'[i], actions'[i]) {
      if i < |actions| { assert states'[i] == states[i] && actions'[i] == actions[i]; }
    }
    assert Path(states', actions');
  }

  // ---- one operation

  /** The slot is free, and the child lives, with its pipe open and nothing in it. */
  predicate Healthy(s: Service, c: ChildId) {
    !s.slot && s.state == Ready && s.current == Some(c) && c in s.children && s.children[c].alive && s.children[c].open
    && Clean(s.children[c])
  }

  /** A lease on the healthy child that is about to look at it. */
  function Running(s: Service, p: Phase, child: Child, next: nat): Service
    requires s.current.Some?
  {
    s.(slot := true, leases := s.leases[s.next := Lease(true, false, false)], calls := s.calls[s.next := p],
       children := s.children[s.current.value := child], next := next)
  }

  lemma Admitted(s: Service, c: ChildId, t: ThreadId)
    requires Healthy(s, c) && t !in s.admitting && s.next !in s.leases && s.next !in s.calls
    ensures Leads(s, Running(s, Entered, s.children[c], s.next + 1))
  {
    hide Leads;
    LeadsSelf(s);
    LeadsOn(s, s, OfLease(Acquire(t)));
    var s1 := Effect(s, OfLease(Acquire(t)));
    LeadsOn(s, s1, OfService(ServiceStep.Examine(t)));
    var s2 := Effect(s1, OfService(ServiceStep.Examine(t)));
    assert s2 == s1.(admitting := s.admitting[t := Deciding(Ready)]);
    LeadsOn(s, s2, OfLease(Admit(t)));
    var s3 := Effect(s2, OfLease(Admit(t)));
    assert s3.admitting == s.admitting;
    LeadsOn(s, s3, OfLease(LeaseStep.EnterRun(s.next)));
    var s4 := Effect(s3, OfLease(LeaseStep.EnterRun(s.next)));
    assert s4.children == s.children[c := s.children[c]];
    assert s4.leases == s.leases[s.next := Lease(true, false, false)];
    assert s4 == Running(s, Entered, s.children[c], s.next + 1);
  }

  predicate Goes(s: Service, a: Action, s': Service) {
    Enabled(s, a) && Effect(s, a) == s'
  }

  lemma Looks(s: Service, c: ChildId)
    requires Healthy(s, c)
    ensures Goes(Running(s, Entered, s.children[c], s.next + 1), OfCall(s.next, Look),
                 Running(s, Looked(Some(c), true), s.children[c], s.next + 1))
  {
  }

  lemma Asks(s: Service, c: ChildId, op: nat)
    requires Healthy(s, c)
    ensures var ch, request := s.children[c], Request(s.next + 1, op);
            Goes(Running(s, Looked(Some(c), true), ch, s.next + 1), OfCall(s.next, Send(op)),
                 Running(s, Phase.Waiting(c, request), ch.(inbox := [request]), s.next + 2))
  {
    assert [] + [Request(s.next + 1, op)] == [Request(s.next + 1, op)];
  }

  lemma Works(s: Service, c: ChildId, op: nat)
    requires Healthy(s, c)
    ensures var p, ch, request := Phase.Waiting(c, Request(s.next + 1, op)), s.children[c], Request(s.next + 1, op);
            && Goes(Running(s, p, ch.(inbox := [request]), s.next + 2), OfChild(c, Reads),
                    Running(s, p, ch.(working := Some(request)), s.next + 2))
            && Goes(Running(s, p, ch.(working := Some(request)), s.next + 2), OfChild(c, Replies),
                    Running(s, p, ch.(outbox := [Reply(request.id, request)]), s.next + 2))
  {
    var request := Request(s.next + 1, op);
    assert [request][1..] == [] && [] + [Reply(request.id, request)] == [Reply(request.id, request)];
  }

  lemma Hears(s: Service, c: ChildId, op: nat)
    requires Healthy(s, c)
    ensures var ch, request := s.children[c], Request(s.next + 1, op);
            var reply := Reply(request.id, request);
            Goes(Running(s, Phase.Waiting(c, request), ch.(outbox := [reply]), s.next + 2), OfCall(s.next, CallStep.Receive),
                 Running(s, Finished(Some((request, reply))), ch, s.next + 2))
  {
    var request := Request(s.next + 1, op);
    assert [Reply(request.id, request)][1..] == [];
  }

  lemma GoesOn(s: Service, mid: Service, a: Action, s': Service)
    requires Leads(s, mid) && Goes(mid, a, s')
    ensures Leads(s, s')
  {
    hide Leads, Enabled, Effect;
    LeadsOn(s, mid, a);
  }

  lemma Answered(s: Service, c: ChildId, op: nat)
    requires Healthy(s, c) && s.next !in s.leases && s.next !in s.calls && Leads(s, Running(s, Entered, s.children[c], s.next + 1))
    ensures var request := Request(s.next + 1, op);
            Leads(s, Running(s, Finished(Some((request, Reply(request.id, request)))), s.children[c], s.next + 2))
  {
    hide Leads, Goes, Running, Clean;
    var l, ch, request := s.next, s.children[c], Request(s.next + 1, op);
    var p, reply := Phase.Waiting(c, request), Reply(request.id, request);
    Looks(s, c);
    Asks(s, c, op);
    Works(s, c, op);
    Hears(s, c, op);
    GoesOn(s, Running(s, Entered, ch, s.next + 1), OfCall(l, Look), Running(s, Looked(Some(c), true), ch, s.next + 1));
    GoesOn(s, Running(s, Looked(Some(c), true), ch, s.next + 1), OfCall(l, Send(op)), Running(s, p, ch.(inbox := [request]), s.next + 2));
    GoesOn(s, Running(s, p, ch.(inbox := [request]), s.next + 2), OfChild(c, Reads), Running(s, p, ch.(working := Some(request)), s.next + 2));
    GoesOn(s, Running(s, p, ch.(working := Some(request)), s.next + 2), OfChild(c, Replies), Running(s, p, ch.(outbox := [reply]), s.next + 2));
    GoesOn(s, Running(s, p, ch.(outbox := [reply]), s.next + 2), OfCall(l, CallStep.Receive),
           Running(s, Finished(Some((request, reply))), ch, s.next + 2));
  }

  /** The end of a run, and of the lease, whether or not its release has been asked for meanwhile. */
  lemma GivesBack(start: Service, s: Service, l: LeaseId)
    requires Leads(start, s) && l in s.calls && s.calls[l].Finished? && l in s.leases && l !in s.freeing
    requires s.leases[l].running && !s.leases[l].released
    ensures Leads(start, s.(slot := false, calls := s.calls - {l}, freed := s.freed + multiset{l},
                            leases := s.leases[l := s.leases[l].(running := false, released := true)]))
  {
    hide Leads;
    var done := s.leases[l].(running := false, released := true);
    var s1 := s.(calls := s.calls - {l}, leases := s.leases[l := s.leases[l].(running := false)]);
    var s2 := s.(calls := s.calls - {l}, leases := s.leases[l := done], freeing := s.freeing + {l});
    var s3 := s.(slot := false, calls := s.calls - {l}, leases := s.leases[l := done], freed := s.freed + multiset{l});
    if s.leases[l].releaseRequested {
      assert Goes(s, OfLease(LeaseStep.ExitRun(l)), s2);
      GoesOn(start, s, OfLease(LeaseStep.ExitRun(l)), s2);
    } else {
      assert Goes(s, OfLease(LeaseStep.ExitRun(l)), s1);
      assert Goes(s1, OfLease(LeaseStep.Release(l)), s2) by { assert s1.leases[l := done] == s2.leases; }
      GoesOn(start, s, OfLease(LeaseStep.ExitRun(l)), s1);
      GoesOn(start, s1, OfLease(LeaseStep.Release(l)), s2);
    }
    assert Goes(s2, OfLease(FreeSlot(l)), s3) by { assert s.freeing + {l} - {l} == s.freeing; }
    hide Goes;
    GoesOn(start, s2, OfLease(FreeSlot(l)), s3);
  }

  /** In every reachable state with a free slot and a living child behind an open pipe, any operation can be carried out: its
    * caller gets the answer to its own request, the slot comes back, and the child is ready for the next one. */
  lemma OperationIsCarriedOut(states: seq<Service>, actions: seq<Action>, i: nat, op: nat) returns (mid: Service, s': Service, request: Request)
    requires IsRun(states, actions) && i < |states|
    requires var s := states[i]; !s.slot && s.state == Ready && s.current.Some? && s.current.value in s.children
                                 && s.children[s.current.value].alive && s.children[s.current.value].open
    ensures var s := states[i];
            && Leads(s, mid) && request.op == op && s.next in mid.calls && mid.calls[s.next] == Finished(Some((request, Reply(request.id, request))))
            && Leads(s, s') && !s'.slot && s'.state == Ready && s'.current == s.current && s'.children == s.children
            && s'.freed[s.next] == 1
  {
    var s := states[i];
    var c := s.current.value;
    SlotTheorems.SlotSafe(states, actions, i);
    SlotTheorems.FreeSlotIsQuiescent(states, actions, i);
    hide IsRun, Leads;
    var t := Fresh(s);
    Admitted(s, c, t);
    request := Request(s.next + 1, op);
    Answered(s, c, op);
    mid := Running(s, Finished(Some((request, Reply(request.id, request)))), s.children[c], s.next + 2);
    NotYetFreed(s);
    GivesBack(s, mid, s.next);
    s' := mid.(slot := false, calls := mid.calls - {s.next}, leases := mid.leases[s.next := Lease(false, false, true)],
               freed := mid.freed + multiset{s.next});
    assert s.children[c := s.children[c]] == s.children;
  }

  lemma NotYetFreed(s: Service)
    requires ServiceInv(s)
    ensures s.freed[s.next] == 0 && s.next !in s.leases && s.next !in s.calls && s.next !in s.freeing
  {
    assert s.next in s.leases ==> LeaseOk(s, s.next);
    hide ChildrenOk;
  }

  lemma {:induction false} FreshThread(ts: set<ThreadId>) returns (t: ThreadId)
    ensures forall u | u in ts :: u < t
  {
    if ts == {} {
      t := 0;
    } else {
      var u :| u in ts;
      var below := FreshThread(ts - {u});
      t := if below > u then below else u + 1;
      assert forall v | v in ts :: v == u || v in ts - {u};
    }
  }

  lemma Fresh(s: Service) returns (t: ThreadId)
    requires ServiceInv(s)
    ensures t !in s.admitting && s.next !in s.leases && s.next !in s.calls
  {
    NotYetFreed(s);
    hide ServiceInv;
    t := FreshThread(s.admitting.Keys);
  }

  // ---- recovery

  /** The call has lost its child to a deadline or a crash. */
  predicate Lost(s: Service, l: LeaseId, c: ChildId) {
    s.state == Ready && s.current == Some(c) && c in s.children && s.respawn == NoThread
    && l in s.calls && s.calls[l] == Failing && l in s.leases && s.leases[l].running && !s.leases[l].released && l !in s.freeing
  }

  /** What is left of a child after it has been killed, joined and its pipe closed. */
  function Gone(c: Child): Child {
    c.(alive := false, joined := true, working := None, open := false)
  }

  function Recovered(s: Service, l: LeaseId, c: ChildId): Service
    requires Lost(s, l, c)
  {
    s.(state := Recovering, current := None, abandoned := s.abandoned + {c}, children := s.children[c := Gone(s.children[c])],
       calls := s.calls[l := Finished(None)], respawn := Trying(0))
  }

  /** The states between losing the child and being about to replace it. */
  function WhenDetached(s: Service, l: LeaseId, c: ChildId): Service {
    s.(state := Recovering, current := None, abandoned := s.abandoned + {c}, calls := s.calls[l := Killing(Some(c))])
  }

  function WhenKilled(s: Service, l: LeaseId, c: ChildId): Service
    requires c in s.children
  {
    WhenDetached(s, l, c).(calls := s.calls[l := Closing(Some(c))], children := s.children[c := Dead(s.children[c])])
  }

  function WhenClosed(s: Service, l: LeaseId, c: ChildId): Service
    requires c in s.children
  {
    WhenDetached(s, l, c).(calls := s.calls[l := Reviving], children := s.children[c := Gone(s.children[c])])
  }

  lemma Detaches(s: Service, l: LeaseId, c: ChildId)
    requires Lost(s, l, c)
    ensures Goes(s, OfCall(l, CallStep.Detach), WhenDetached(s, l, c))
  {
  }

  lemma Kills(s: Service, l: LeaseId, c: ChildId)
    requires Lost(s, l, c)
    ensures Goes(WhenDetached(s, l, c), OfCall(l, Kill), WhenKilled(s, l, c))
  {
    assert s.calls[l := Killing(Some(c))][l := Closing(Some(c))] == s.calls[l := Closing(Some(c))];
  }

  lemma Closes(s: Service, l: LeaseId, c: ChildId)
    requires Lost(s, l, c)
    ensures Goes(WhenKilled(s, l, c), OfCall(l, Close), WhenClosed(s, l, c))
  {
    assert s.calls[l := Closing(Some(c))][l := Reviving] == s.calls[l := Reviving];
    assert s.children[c := Dead(s.children[c])][c := Gone(s.children[c])] == s.children[c := Gone(s.children[c])];
  }

  lemma Revives(s: Service, l: LeaseId, c: ChildId)
    requires Lost(s, l, c)
    ensures Goes(WhenClosed(s, l, c), OfCall(l, CallStep.Revive), Recovered(s, l, c))
  {
    assert s.calls[l := Reviving][l := Finished(None)] == s.calls[l := Finished(None)];
  }

  lemma Recovers(s: Service, l: LeaseId, c: ChildId)
    requires Lost(s, l, c)
    ensures Leads(s, Recovered(s, l, c))
  {
    hide Leads, Goes, Recovered, WhenDetached, WhenKilled, WhenClosed;
    LeadsSelf(s);
    Detaches(s, l, c);
    Kills(s, l, c);
    Closes(s, l, c);
    Revives(s, l, c);
    GoesOn(s, s, OfCall(l, CallStep.Detach), WhenDetached(s, l, c));
    GoesOn(s, WhenDetached(s, l, c), OfCall(l, Kill), WhenKilled(s, l, c));
    GoesOn(s, WhenKilled(s, l, c), OfCall(l, Close), WhenClosed(s, l, c));
    GoesOn(s, WhenClosed(s, l, c), OfCall(l, CallStep.Revive), Recovered(s, l, c));
  }

  function Spawned(s: Service, r: Respawn): Service {
    s.(children := s.children[s.next := LOADING], respawn := r, next := s.next + 1)
  }

  function Replaced(s: Service): Service {
    Spawned(s, NoThread).(state := Ready, current := Some(s.next), installed := s.installed + {s.next})
  }

  lemma Spawns(s: Service)
    requires s.state == Recovering && s.respawn == Trying(0)
    ensures Goes(s, OfSpawn(Spawn), Spawned(s, Respawn.Loading(0, s.next)))
  {
  }

  lemma Readies(s: Service)
    ensures Goes(Spawned(s, Respawn.Loading(0, s.next)), OfSpawn(SpawnReady), Spawned(s, Respawn.Loaded(s.next)))
  {
  }

  lemma Installs(s: Service)
    requires s.state == Recovering
    ensures Goes(Spawned(s, Respawn.Loaded(s.next)), OfSpawn(Install), Replaced(s))
  {
  }

  /** A replacement is loaded and installed. */
  lemma Replaces(start: Service, s: Service)
    requires Leads(start, s) && s.state == Recovering && s.respawn == Trying(0)
    ensures Leads(start, Replaced(s))
  {
    hide *;
    Spawns(s);
    Readies(s);
    Installs(s);
    GoesOn(start, s, OfSpawn(Spawn), Spawned(s, Respawn.Loading(0, s.next)));
    GoesOn(start, Spawned(s, Respawn.Loading(0, s.next)), OfSpawn(SpawnReady), Spawned(s, Respawn.Loaded(s.next)));
    GoesOn(start, Spawned(s, Respawn.Loaded(s.next)), OfSpawn(Install), Replaced(s));
  }

  /** From every reachable state in which a call has lost its child the service can come back: the child is dead, joined and
    * closed, a new one is in service with nothing in its pipe, and the slot is free. */
  lemma LostChildIsReplaced(states: seq<Service>, actions: seq<Action>, i: nat, l: LeaseId) returns (s': Service)
    requires IsRun(states, actions) && i < |states| && states[i].state == Ready && l in states[i].calls && states[i].calls[l] == Failing
    ensures var s := states[i];
            && s.current.Some? && s.current.value in s.children
            && Leads(s, s') && !s'.slot && s'.state == Ready && s'.freed[l] == 1
            && s'.current.Some? && s'.current.value !in s.children && s'.current.value in s'.children
            && s'.children[s'.current.value] == Child(true, false, true, [], None, [])
            && s.current.value in s'.children && Buried(s'.children[s.current.value])
  {
    var s := states[i];
    SlotTheorems.SlotSafe(states, actions, i);
    hide IsRun, Leads;
    LostIs(s, l);
    var c := s.current.value;
    Recovers(s, l, c);
    var s1 := Recovered(s, l, c);
    GivesBack(s, s1, l);
    var s2 := s1.(slot := false, calls := s1.calls - {l}, freed := s1.freed + multiset{l},
                  leases := s1.leases[l := s1.leases[l].(running := false, released := true)]);
    Replaces(s, s2);
    s' := Replaced(s2);
  }

  lemma LostIs(s: Service, l: LeaseId)
    requires ServiceInv(s) && s.state == Ready && l in s.calls && s.calls[l] == Failing
    ensures s.current.Some? && Lost(s, l, s.current.value) && s.freed[l] == 0 && s.next !in s.children && s.current.value < s.next
  {
    assert LeaseOk(s, l);
    hide UnusedOk, CallsOk, BusyOk, AliveOk, AbandonedOk, RecoveryOk, OwnersOk;
  }

  // ---- a child that dies while the slot is free

  /** The next caller finds the child dead, is refused, and has a replacement started. */
  function Refused(s: Service, c: ChildId): Service
    requires c in s.children
  {
    s.(children := s.children[c := s.children[c].(alive := false)], state := Recovering, current := None, respawn := Trying(0))
  }

  lemma Crashes(s: Service, c: ChildId)
    requires Healthy(s, c)
    ensures Goes(s, OfChild(c, Dies), s.(children := s.children[c := s.children[c].(alive := false)]))
  {
  }

  lemma FoundDead(s: Service, c: ChildId, t: ThreadId)
    requires Healthy(s, c) && s.respawn == NoThread && t !in s.admitting
    ensures var s1 := s.(children := s.children[c := s.children[c].(alive := false)]);
            var s2 := s1.(slot := true, admitting := s.admitting[t := Checking]);
            var s3 := Refused(s, c).(slot := true, admitting := s.admitting[t := Deciding(Recovering)]);
            && Goes(s1, OfLease(Acquire(t)), s2) && Goes(s2, OfService(ServiceStep.Examine(t)), s3)
            && Goes(s3, OfLease(Refuse(t)), Refused(s, c))
  {
    assert s.admitting[t := Checking][t := Deciding(Recovering)] == s.admitting[t := Deciding(Recovering)];
    assert s.admitting[t := Deciding(Recovering)] - {t} == s.admitting;
  }

  /** From every reachable state with a free slot and a living child, the child can die, and the service comes back with a
    * new child that has nothing in its pipe, and with the slot free. */
  lemma DeadChildIsReplaced(states: seq<Service>, actions: seq<Action>, i: nat) returns (dead: Service, s': Service)
    requires IsRun(states, actions) && i < |states|
    requires var s := states[i]; !s.slot && s.state == Ready && s.current.Some? && s.current.value in s.children
                                 && s.children[s.current.value].alive && s.children[s.current.value].open
    ensures var s, c := states[i], states[i].current.value;
            && Leads(s, dead) && !dead.slot && dead.state == Ready && dead.current == Some(c)
            && dead.children == s.children[c := s.children[c].(alive := false)]
            && Leads(s, s') && !s'.slot && s'.state == Ready && s'.leases == s.leases
            && s'.current.Some? && s'.current.value !in s.children && s'.current.value in s'.children
            && s'.children[s'.current.value] == Child(true, false, true, [], None, [])
  {
    var s := states[i];
    var c := s.current.value;
    SlotTheorems.SlotSafe(states, actions, i);
    SlotTheorems.FreeSlotIsQuiescent(states, actions, i);
    hide IsRun, Leads;
    var t := Fresh(s);
    NoneLoading(s);
    hide ServiceInv, Goes;
    LeadsSelf(s);
    Crashes(s, c);
    dead := s.(children := s.children[c := s.children[c].(alive := false)]);
    GoesOn(s, s, OfChild(c, Dies), dead);
    FoundDead(s, c, t);
    var s2 := dead.(slot := true, admitting := s.admitting[t := Checking]);
    var s3 := Refused(s, c).(slot := true, admitting := s.admitting[t := Deciding(Recovering)]);
    GoesOn(s, dead, OfLease(Acquire(t)), s2);
    GoesOn(s, s2, OfService(ServiceStep.Examine(t)), s3);
    GoesOn(s, s3, OfLease(Refuse(t)), Refused(s, c));
    var s4 := Refused(s, c);
    Replaces(s, s4);
    s' := Replaced(s4);
  }

  lemma NoneLoading(s: Service)
    requires ServiceInv(s) && s.state == Ready
    ensures s.respawn == NoThread && s.next !in s.children
  {
    hide UnusedOk, CallsOk, BusyOk, AliveOk, AbandonedOk, OwnersOk;
  }
}
