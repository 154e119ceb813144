/** What the processing slot promises, over every interleaving of its threads and its child. */
module SlotTheorems {
  import opened Wrappers
  import opened Slot
  import opened SlotSafety

  lemma {:induction false} SlotSafe(states: seq<Service>, actions: seq<Action>, i: nat)
    requires IsRun(states, actions) && i < |states|
    ensures ServiceInv(states[i])
  {
    hide ServiceInv, Enabled, Effect;
    if i == 0 {
      InitKeeps();
    } else {
      SlotSafe(states, actions, i - 1);
      StepKeeps(states[i - 1], actions[i - 1]);
    }
  }

  // ---- release

  /** The lock is released at most once for each lease, and only while it is held for that lease and nobody else; a lease
    * marked released has either released it or is in the hands of the one thread that is about to. */
  lemma ReleasedExactlyOnce(states: seq<Service>, actions: seq<Action>, i: nat, l: LeaseId)
    requires IsRun(states, actions) && i < |states|
    ensures states[i].freed[l] <= 1
    ensures l in states[i].leases ==>
              (states[i].leases[l].released <==> (states[i].freed[l] == 1) != (l in states[i].freeing))
    ensures l in states[i].freeing ==> Enabled(states[i], OfLease(FreeSlot(l))) && states[i].slot
    ensures i < |actions| && actions[i] == OfLease(FreeSlot(l)) ==>
              && states[i].slot && states[i].freed[l] == 0 && states[i].admitting == map[]
              && (forall m | m in states[i].leases && m != l :: states[i].freed[m] == 1)
  {
    SlotSafe(states, actions, i);
    HoldersAre(states[i]);
    assert l in states[i].freed ==> LeaseOk(states[i], l);
    if l in states[i].leases { assert LeaseOk(states[i], l); }
    if l in states[i].freeing { FreeingHolds(states[i], l); }
    if i < |actions| && actions[i] == OfLease(FreeSlot(l)) {
      assert Enabled(states[i], OfLease(FreeSlot(l)));
      hide ServiceInv, IsRun;
      FreeHolders(states[i], l);
      assert LeaseOk(states[i], l);
      forall m | m in states[i].leases && m != l ensures states[i].freed[m] == 1 {
        assert LeaseOk(states[i], m) && !Holds(states[i], m);
      }
    }
  }

  lemma FreeingHolds(s: Service, l: LeaseId)
    requires HoldersOk(s) && l in s.freeing
    ensures s.slot && l in s.leases
  {
    assert LeaseOk(s, l) && Holds(s, l);
  }

  lemma HoldersAre(s: Service)
    requires ServiceInv(s)
    ensures HoldersOk(s) && ChildrenOk(s)
  {
    hide HoldersOk, ChildrenOk;
  }

  /** A lease that was asked to give the slot back does so as soon as its operation has ended. */
  lemma DeferredReleaseIsNotForgotten(states: seq<Service>, actions: seq<Action>, i: nat, l: LeaseId)
    requires IsRun(states, actions) && i < |actions| && actions[i] == OfLease(ExitRun(l))
    ensures l in states[i].leases && !states[i].leases[l].released
    ensures states[i].leases[l].releaseRequested <==> l in states[i + 1].freeing
  {
    SlotSafe(states, actions, i);
    HoldersAre(states[i]);
    assert Enabled(states[i], actions[i]) && states[i + 1] == Effect(states[i], actions[i]);
    assert LeaseOk(states[i], l);
  }

  // ---- one operation at a time

  /** A living child has a request that it has not answered. */
  predicate Operating(s: Service, c: ChildId) {
    c in s.children && s.children[c].alive && (s.children[c].working.Some? || s.children[c].inbox != [])
  }

  /** Never two operations at a time, whatever has timed out, crashed or been stopped; an awaited child has one request. */
  lemma OneOperationAtATime(states: seq<Service>, actions: seq<Action>, i: nat, c: ChildId, d: ChildId)
    requires IsRun(states, actions) && i < |states| && Operating(states[i], c) && Operating(states[i], d)
    ensures c == d
    ensures Attended(states[i], c) ==>
              |states[i].children[c].inbox| + (if states[i].children[c].working.Some? then 1 else 0) == 1
  {
    SlotSafe(states, actions, i);
    HoldersAre(states[i]);
    hide IsRun;
    HoldersOneCall(states[i]);
    BusyAlone(states[i], c, d);
    if Attended(states[i], c) { OneRequest(states[i], c); }
  }

  predicate Attended(s: Service, c: ChildId) {
    exists l | l in s.calls :: s.calls[l].Waiting? && s.calls[l].child == c
  }

  lemma OneRequest(s: Service, c: ChildId)
    requires ChildrenOk(s) && Operating(s, c) && Attended(s, c)
    ensures |s.children[c].inbox| + (if s.children[c].working.Some? then 1 else 0) == 1
  {
    var l :| l in s.calls && s.calls[l].Waiting? && s.calls[l].child == c;
    assert CallOk(s, l);
  }

  lemma BusyAlone(s: Service, c: ChildId, d: ChildId)
    requires ChildrenOk(s) && OneCall(s) && Operating(s, c) && Operating(s, d)
    ensures c == d
  {
    if c in s.stopping {
      BusyBeside(s, d, c);
    } else if d in s.stopping {
      BusyBeside(s, c, d);
    } else {
      var l :| l in s.calls && Handles(s, l, c);
      var m :| m in s.calls && Handles(s, m, d);
      assert l == m;
    }
  }

  /** While stop() has taken a busy child, nothing else is operating. */
  lemma BusyBeside(s: Service, c: ChildId, d: ChildId)
    requires ChildrenOk(s) && Operating(s, c) && Operating(s, d) && d in s.stopping
    ensures c == d
  {
    if c !in s.stopping {
      var l :| l in s.calls && Handles(s, l, c);
      assert s.current == None;
      assert CallOk(s, l);
      assert Sole(s, c);
    }
  }

  /** Unless stop() has taken its child, an operation runs only while a lease whose call answers for it holds the slot. */
  lemma OperatesOnlyUnderALease(states: seq<Service>, actions: seq<Action>, i: nat, c: ChildId)
    requires IsRun(states, actions) && i < |states| && Operating(states[i], c) && c !in states[i].stopping
    ensures states[i].slot
    ensures exists l | l in states[i].leases && l in states[i].calls :: Holds(states[i], l) && Handles(states[i], l, c)
  {
    SlotSafe(states, actions, i);
    HoldersAre(states[i]);
    hide IsRun;
    OperatorHolds(states[i], c);
  }

  lemma OperatorHolds(s: Service, c: ChildId)
    requires HoldersOk(s) && ChildrenOk(s) && Operating(s, c) && c !in s.stopping
    ensures s.slot && exists l | l in s.leases && l in s.calls :: Holds(s, l) && Handles(s, l, c)
  {
    assert !Clean(s.children[c]);
    var l :| l in s.calls && Handles(s, l, c);
    assert LeaseOk(s, l);
    assert Holds(s, l);
  }

  // ---- requests and replies

  /** Whenever the slot is free and the service ready, nothing is in the pipe or in the child's hands. */
  lemma FreeSlotIsQuiescent(states: seq<Service>, actions: seq<Action>, i: nat)
    requires IsRun(states, actions) && i < |states| && !states[i].slot && states[i].state == Ready
    ensures states[i].current.Some? && states[i].current.value in states[i].children
    ensures Clean(states[i].children[states[i].current.value])
  {
    SlotSafe(states, actions, i);
    HoldersAre(states[i]);
    hide IsRun;
    QuietWhenFree(states[i]);
  }

  lemma QuietWhenFree(s: Service)
    requires HoldersOk(s) && ChildrenOk(s) && !s.slot && s.state == Ready
    ensures s.current.Some? && s.current.value in s.children && Clean(s.children[s.current.value])
  {
    CallHoldsSlot(s);
    assert s.stopping == map[];
  }

  /** A reply is always the answer to the request it is received for: the id check never fails. */
  lemma RepliesMatch(states: seq<Service>, actions: seq<Action>, i: nat, l: LeaseId)
    requires IsRun(states, actions) && i < |actions| && actions[i] == OfCall(l, Receive)
    ensures l in states[i].calls && states[i].calls[l].Waiting? && l in states[i + 1].calls
    ensures var request := states[i].calls[l].request;
            states[i + 1].calls[l] == Finished(Some((request, Reply(request.id, request))))
  {
    SlotSafe(states, actions, i);
    HoldersAre(states[i]);
    assert CallEnabled(states[i], l, Receive) && states[i + 1] == Effect(states[i], actions[i]);
    hide IsRun;
    Matches(states[i], l);
  }

  lemma Matches(s: Service, l: LeaseId)
    requires HoldersOk(s) && ChildrenOk(s) && CallEnabled(s, l, Receive)
    ensures var request := s.calls[l].request;
            CallEffect(s, l, Receive).calls[l] == Finished(Some((request, Reply(request.id, request))))
  {
    HoldersOneCall(s);
    UnfoldChildren(s);
    SingleBusy(s, l);
    assert CallOk(s, l) && RestOk(s);
    hide *;
    ReceiveKeeps(s, l);
  }

  // ---- children

  /** Every living child is current, being loaded, in the hands of stop(), or being killed by the slot holder. */
  lemma NoOrphans(states: seq<Service>, actions: seq<Action>, i: nat, c: ChildId)
    requires IsRun(states, actions) && i < |states| && c in states[i].children && states[i].children[c].alive
    ensures states[i].current == Some(c) || BeingLoaded(states[i], c) || c in states[i].stopping
            || (states[i].slot && exists l | l in states[i].calls :: states[i].calls[l] == Killing(Some(c)))
  {
    SlotSafe(states, actions, i);
    HoldersAre(states[i]);
    hide IsRun;
    CallHoldsSlot(states[i]);
  }

  lemma CallHoldsSlot(s: Service)
    requires HoldersOk(s)
    ensures s.calls != map[] ==> s.slot
  {
    if s.calls != map[] {
      var l :| l in s.calls;
      assert LeaseOk(s, l);
      assert Holds(s, l);
    }
  }

  /** The slot is free only after every child given up on a deadline or a crash is dead, joined and its pipe closed. */
  lemma FreedAfterTheChildIsGone(states: seq<Service>, actions: seq<Action>, i: nat, c: ChildId)
    requires IsRun(states, actions) && i < |states| && !states[i].slot && c in states[i].abandoned
    ensures c in states[i].children && Buried(states[i].children[c])
  {
    SlotSafe(states, actions, i);
    HoldersAre(states[i]);
    hide IsRun;
    CallHoldsSlot(states[i]);
    hide HoldersOk;
    GoneWhenFree(states[i], c);
  }

  lemma GoneWhenFree(s: Service, c: ChildId)
    requires ChildrenOk(s) && s.calls == map[] && c in s.abandoned
    ensures c in s.children && Buried(s.children[c])
  {
    hide CallsOk, BusyOk, AliveOk, UnusedOk, RecoveryOk;
  }

  /** While the service recovers, a thread is loading a replacement or the slot holder is about to start one. */
  lemma RecoveryIsUnderWay(states: seq<Service>, actions: seq<Action>, i: nat)
    requires IsRun(states, actions) && i < |states| && states[i].state == Recovering
    ensures states[i].respawn != NoThread || exists l | l in states[i].calls :: Reviver(states[i].calls[l])
  {
    SlotSafe(states, actions, i);
    HoldersAre(states[i]);
    hide IsRun, HoldersOk;
    UnfoldChildren(states[i]);
  }
}
