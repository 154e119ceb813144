/** What every interleaving of the slot keeps. */
module SlotSafety {
  import opened Wrappers
  import opened Slot

  // ---- who holds the slot

  /** A lease whose slot has not been given back. */
  predicate Holds(s: Service, l: LeaseId) {
    l in s.leases && s.freed[l] == 0
  }

  predicate OwnersOk(s: Service) {
    && (forall t, u | t in s.admitting && u in s.admitting :: t == u)
    && (forall l, m | l in s.leases && m in s.leases && Holds(s, l) && Holds(s, m) :: l == m)
    && (s.admitting != map[] ==> forall l | l in s.leases :: !Holds(s, l))
    && (s.slot <==> s.admitting != map[] || exists l | l in s.leases :: Holds(s, l))
  }

  predicate LeaseOk(s: Service, l: LeaseId)
    requires l in s.leases
  {
    && l < s.next && s.freed[l] <= 1
    && (s.leases[l].released <==> l in s.freeing || s.freed[l] == 1)
    && !(l in s.freeing && s.freed[l] == 1)
    && (s.leases[l].running <==> l in s.calls)
    && (s.leases[l].running ==> !s.leases[l].released)
  }

  predicate LeasesOk(s: Service) {
    && s.calls.Keys <= s.leases.Keys && s.freeing <= s.leases.Keys
    && (forall l | l in s.freed :: l in s.leases)
    && (forall l | l in s.leases :: LeaseOk(s, l))
  }

  // ---- the children

  predicate Clean(c: Child) {
    c.inbox == [] && c.working.None? && c.outbox == []
  }

  /** At most this one request is in the child's hands, or its answer. */
  predicate AtMost(c: Child, r: Request) {
    || Clean(c)
    || (c.inbox == [r] && c.working.None? && c.outbox == [])
    || (c.inbox == [] && c.working == Some(r) && c.outbox == [])
    || (c.inbox == [] && c.working.None? && c.outbox == [Reply(r.id, r)])
  }

  /** No other living child has anything to do. */
  predicate Sole(s: Service, c: ChildId) {
    forall d | d in s.children && d != c && s.children[d].alive :: Clean(s.children[d])
  }

  /** Whoever gives up on the child now leaves it in somebody's hands. */
  predicate Reach(s: Service, c: ChildId) {
    s.current == Some(c) || c in s.stopping || (c in s.children && !s.children[c].alive)
  }

  predicate BeingLoaded(s: Service, c: ChildId) {
    s.starting == Some(c) || (s.respawn.Loading? && s.respawn.child == c) || (s.respawn.Loaded? && s.respawn.child == c)
  }

  predicate ServiceOk(s: Service) {
    && (s.current.Some? <==> s.state == Ready) && (s.starting.Some? <==> s.state == Starting)
    && (s.current.Some? ==> s.current.value in s.installed) && s.installed <= s.children.Keys
    && (forall c | c in s.children :: c < s.next)
    && (s.respawn != NoThread ==> s.state == Recovering || s.state == Stopped)
    && (s.stopping != map[] ==> s.state == Stopped && s.started)
    && (forall c, d | c in s.stopping && d in s.stopping :: c == d)
    && (forall c | c in s.stopping :: c in s.installed)
    && (!s.started ==> s.state == Stopped && s.installed == {} && s.respawn == NoThread)
    && (s.state == Starting ==> s.installed == {} && s.respawn == NoThread)
    && (s.installed == {} ==> s.leases == map[] && forall t | t in s.admitting :: s.admitting[t] != Deciding(Ready))
  }

  /** A child that is not yet in use: nothing has been sent to it, and it lives only while it is being loaded. */
  ghost predicate UnusedOk(s: Service) {
    && (forall c | BeingLoaded(s, c) :: c in s.children && c !in s.installed)
    && (forall c | c in s.children && c !in s.installed :: Clean(s.children[c]) && (s.children[c].alive ==> BeingLoaded(s, c)))
  }

  predicate CallOk(s: Service, l: LeaseId)
    requires l in s.calls
  {
    match s.calls[l]
    case Looked(seen, ready) =>
      seen.Some? ==> && seen.value in s.installed && seen.value in s.children
                     && (ready ==> Clean(s.children[seen.value]) && Sole(s, seen.value) && Reach(s, seen.value))
    case Waiting(c, r) => c in s.installed && c in s.children && AtMost(s.children[c], r) && Sole(s, c) && Reach(s, c)
    case Killing(victim) =>
      victim.Some? ==> && victim.value in s.installed && victim.value in s.children && Sole(s, victim.value)
                       && s.current != victim
    case Closing(victim) =>
      victim.Some? ==> && victim.value in s.installed && victim.value in s.children
                       && !s.children[victim.value].alive && s.children[victim.value].joined
    case Finished(result) => result.Some? ==> result.value.1 == Reply(result.value.0.id, result.value.0)
    case _ => true
  }

  predicate CallsOk(s: Service) {
    forall l | l in s.calls :: CallOk(s, l)
  }

  /** The call that answers for what the child is doing. */
  predicate Handles(s: Service, l: LeaseId, c: ChildId) {
    l in s.calls
    && ((s.calls[l].Waiting? && s.calls[l].child == c) || (s.calls[l] == Failing && s.current == Some(c))
        || s.calls[l] == Killing(Some(c)))
  }

  predicate BusyOk(s: Service) {
    forall c | c in s.children && !Clean(s.children[c]) && (s.children[c].alive || s.current == Some(c)) ::
      c in s.stopping || exists l | l in s.calls :: Handles(s, l, c)
  }

  predicate AliveOk(s: Service) {
    && (forall c | c in s.stopping && s.stopping[c] && c in s.children :: !s.children[c].alive)
    && forall c | c in s.children && s.children[c].alive ::
      || s.current == Some(c) || BeingLoaded(s, c) || c in s.stopping
      || exists l | l in s.calls :: s.calls[l] == Killing(Some(c))
  }

  predicate Buried(c: Child) {
    !c.alive && c.joined && !c.open
  }

  predicate AbandonedOk(s: Service) {
    s.abandoned <= s.installed
    && forall c | c in s.abandoned && c in s.children && !Buried(s.children[c]) ::
         exists l | l in s.calls :: s.calls[l] == Killing(Some(c)) || s.calls[l] == Closing(Some(c))
  }

  predicate Reviver(p: Phase) {
    p.Killing? || p.Closing? || p == Reviving
  }

  predicate RecoveryOk(s: Service) {
    s.state == Recovering ==> s.respawn != NoThread || exists l | l in s.calls :: Reviver(s.calls[l])
  }

  /** The lease side of the invariant, and the side of the children. */
  predicate HoldersOk(s: Service) {
    OwnersOk(s) && LeasesOk(s)
  }

  ghost predicate ChildrenOk(s: Service) {
    ServiceOk(s) && UnusedOk(s) && CallsOk(s) && BusyOk(s) && AliveOk(s) && AbandonedOk(s) && RecoveryOk(s)
  }

  ghost predicate ServiceInv(s: Service) {
    HoldersOk(s) && ChildrenOk(s)
  }

  lemma InitKeeps()
    ensures ServiceInv(Init())
  {
  }

  // ---- the lease side

  /** The parts of the state that the lease side speaks about. */
  ghost predicate SameHolders(s: Service, s': Service) {
    && s'.slot == s.slot && s'.leases == s.leases && s'.freeing == s.freeing && s'.freed == s.freed && s.next <= s'.next
    && (forall l :: l in s'.calls <==> l in s.calls) && (forall t :: t in s'.admitting <==> t in s.admitting)
  }

  predicate SameLeases(s: Service, s': Service) {
    s'.slot == s.slot && s'.leases == s.leases && s'.freeing == s.freeing && s'.freed == s.freed && s.next <= s'.next
  }

  lemma CallFrame(s: Service, l: LeaseId, a: CallStep)
    requires CallEnabled(s, l, a)
    ensures var s' := CallEffect(s, l, a);
            && l in s.calls && l in s'.calls && s'.calls == s.calls[l := s'.calls[l]]
            && SameLeases(s, s') && s'.admitting == s.admitting && s'.stopping == s.stopping
            && s'.installed == s.installed && s'.starting == s.starting && s'.started == s.started
  {
    hide Dead, DetachedState, Begun;
  }

  lemma DiscardedFrame(s: Service, c: ChildId)
    requires c in s.children
    ensures SameLeases(s, Discarded(s, c)) && Discarded(s, c).calls == s.calls && Discarded(s, c).admitting == s.admitting
  {
    hide Dead;
  }

  lemma ExaminedFrame(s: Service, t: ThreadId)
    requires t in s.admitting
    ensures var s' := Examined(s, t);
            && SameLeases(s, s') && s'.calls == s.calls && t in s'.admitting && s'.admitting == s.admitting[t := s'.admitting[t]]
  {
    hide Begun;
  }

  lemma ServiceStepFrame(s: Service, a: ServiceStep)
    requires ServiceEnabled(s, a)
    ensures var s' := ServiceEffect(s, a);
            && SameLeases(s, s') && s'.calls == s.calls
            && (if a.Examine? then a.thread in s.admitting && a.thread in s'.admitting
                                   && s'.admitting == s.admitting[a.thread := s'.admitting[a.thread]]
                else s'.admitting == s.admitting)
  {
    hide Dead, Begun, Examined, Discarded;
    match a
    case StartService =>
    case StartLoaded =>
    case StartFailed => DiscardedFrame(s, s.starting.value);
    case StopService => if s.current.Some? { } else { }
    case StopJoined(c) =>
    case StopClosed(c) =>
    case Examine(t) => ExaminedFrame(s, t);
  }

  lemma InstallFrame(s: Service)
    requires SpawnEnabled(s, Install)
    ensures var s' := Installed(s);
            && SameLeases(s, s') && s'.calls == s.calls && s'.admitting == s.admitting
            && s'.stopping == s.stopping && s'.starting == s.starting && s'.started == s.started
  {
    if s.state == Stopped {
    } else {
    }
  }

  lemma SpawnFrame(s: Service, a: SpawnStep)
    requires SpawnEnabled(s, a)
    ensures var s' := SpawnEffect(s, a);
            && SameLeases(s, s') && s'.calls == s.calls && s'.admitting == s.admitting
            && s'.stopping == s.stopping && s'.starting == s.starting && s'.started == s.started
  {
    match a
    case Spawn => if s.state == Stopped { } else { }
    case SpawnFailed =>
    case SpawnReady =>
    case Install => InstallFrame(s);
    case Surrender =>
  }

  lemma HoldersSame(s: Service, s': Service)
    requires HoldersOk(s) && SameHolders(s, s')
    ensures HoldersOk(s')
  {
    assert s'.admitting == map[] <==> s.admitting == map[];
    assert forall l | l in s.leases :: Holds(s', l) == Holds(s, l);
    forall l | l in s'.leases ensures LeaseOk(s', l) { assert LeaseOk(s, l); }
  }

  lemma AcquireHolders(s: Service, t: ThreadId)
    requires HoldersOk(s) && LeaseEnabled(s, Acquire(t))
    ensures HoldersOk(LeaseEffect(s, Acquire(t)))
  {
    var s' := LeaseEffect(s, Acquire(t));
    assert t in s'.admitting;
    assert forall l | l in s.leases :: Holds(s', l) == Holds(s, l);
    forall l | l in s'.leases ensures LeaseOk(s', l) { assert LeaseOk(s, l); }
  }

  lemma AdmitHolders(s: Service, t: ThreadId)
    requires HoldersOk(s) && LeaseEnabled(s, Admit(t))
    ensures HoldersOk(LeaseEffect(s, Admit(t)))
  {
    var s' := LeaseEffect(s, Admit(t));
    assert forall l | l in s.leases :: LeaseOk(s, l);
    assert s.next !in s.leases;
    assert s.next !in s.freed;
    assert Holds(s', s.next);
    assert forall l | l in s.leases :: Holds(s', l) == Holds(s, l);
    assert s'.admitting == map[];
    forall l | l in s'.leases ensures LeaseOk(s', l) { if l in s.leases { assert LeaseOk(s, l); } }
  }

  lemma RefuseHolders(s: Service, t: ThreadId)
    requires HoldersOk(s) && LeaseEnabled(s, Refuse(t))
    ensures HoldersOk(LeaseEffect(s, Refuse(t)))
  {
    var s' := LeaseEffect(s, Refuse(t));
    assert s'.admitting == map[];
    assert forall l | l in s.leases :: Holds(s', l) == Holds(s, l);
    forall l | l in s'.leases ensures LeaseOk(s', l) { assert LeaseOk(s, l); }
  }

  /** Changing one lease's flags without giving its slot back. */
  lemma FlagsHolders(s: Service, s': Service, l: LeaseId)
    requires HoldersOk(s) && l in s.leases && s'.leases.Keys == s.leases.Keys
    requires s'.slot == s.slot && s'.admitting == s.admitting && s'.freed == s.freed && s'.next == s.next
    requires forall m | m in s.leases && m != l ::
        s'.leases[m] == s.leases[m] && (m in s'.calls <==> m in s.calls) && (m in s'.freeing <==> m in s.freeing)
    requires LeaseOk(s', l) && s'.calls.Keys <= s.leases.Keys && s'.freeing <= s.leases.Keys
    ensures HoldersOk(s')
  {
    assert forall m | m in s.leases :: Holds(s', m) == Holds(s, m);
    forall m | m in s'.leases ensures LeaseOk(s', m) { assert LeaseOk(s, m); }
  }

  lemma FreeHolders(s: Service, l: LeaseId)
    requires HoldersOk(s) && LeaseEnabled(s, FreeSlot(l))
    ensures HoldersOk(LeaseEffect(s, FreeSlot(l)))
    ensures s.slot && s.admitting == map[] && forall m | m in s.leases && Holds(s, m) :: m == l
  {
    var s' := LeaseEffect(s, FreeSlot(l));
    assert LeaseOk(s, l) && Holds(s, l);
    assert s'.freed[l] == 1;
    assert forall m | m in s.leases && m != l :: s'.freed[m] == s.freed[m];
    hide OwnersOk;
    forall m | m in s'.leases ensures LeaseOk(s', m) { assert LeaseOk(s, m); }
    NoOwnerLeft(s, s', l);
  }

  lemma NoOwnerLeft(s: Service, s': Service, l: LeaseId)
    requires OwnersOk(s) && l in s.leases && Holds(s, l)
    requires s'.leases == s.leases && s'.admitting == s.admitting && !s'.slot
    requires s'.freed[l] == 1 && forall m | m in s.leases && m != l :: s'.freed[m] == s.freed[m]
    ensures OwnersOk(s') && s.slot && s.admitting == map[] && forall m | m in s.leases && Holds(s, m) :: m == l
  {
    assert forall m | m in s.leases :: !Holds(s', m);
  }

  lemma EnterHolders(s: Service, l: LeaseId)
    requires HoldersOk(s) && LeaseEnabled(s, EnterRun(l))
    ensures HoldersOk(LeaseEffect(s, EnterRun(l)))
  {
    assert LeaseOk(s, l);
    FlagsHolders(s, LeaseEffect(s, EnterRun(l)), l);
  }

  lemma ExitHolders(s: Service, l: LeaseId)
    requires HoldersOk(s) && LeaseEnabled(s, ExitRun(l))
    ensures HoldersOk(LeaseEffect(s, ExitRun(l)))
  {
    assert LeaseOk(s, l);
    FlagsHolders(s, LeaseEffect(s, ExitRun(l)), l);
  }

  lemma ReleaseHolders(s: Service, l: LeaseId)
    requires HoldersOk(s) && LeaseEnabled(s, Release(l))
    ensures HoldersOk(LeaseEffect(s, Release(l)))
  {
    assert LeaseOk(s, l);
    FlagsHolders(s, LeaseEffect(s, Release(l)), l);
  }

  lemma LeaseStepHolders(s: Service, a: LeaseStep)
    requires HoldersOk(s) && LeaseEnabled(s, a)
    ensures HoldersOk(LeaseEffect(s, a))
  {
    hide LeaseEnabled, LeaseEffect, HoldersOk;
    match a
    case Acquire(t) => AcquireHolders(s, t);
    case Admit(t) => AdmitHolders(s, t);
    case Refuse(t) => RefuseHolders(s, t);
    case EnterRun(l) => EnterHolders(s, l);
    case ExitRun(l) => ExitHolders(s, l);
    case Release(l) => ReleaseHolders(s, l);
    case FreeSlot(l) => FreeHolders(s, l);
  }

  lemma StepKeepsHolders(s: Service, a: Action)
    requires HoldersOk(s) && Enabled(s, a)
    ensures HoldersOk(Effect(s, a))
  {
    hide LeaseEnabled, LeaseEffect, CallEnabled, CallEffect, ServiceEnabled, ServiceEffect, SpawnEnabled, SpawnEffect,
         ChildAfter, HoldersOk;
    match a
    case OfLease(step) => LeaseStepHolders(s, step);
    case OfCall(l, step) =>
      CallFrame(s, l, step);
      HoldersSame(s, Effect(s, a));
    case OfService(step) =>
      ServiceStepFrame(s, step);
      HoldersSame(s, Effect(s, a));
    case OfSpawn(step) =>
      SpawnFrame(s, step);
      HoldersSame(s, Effect(s, a));
    case OfChild(c, step) => HoldersSame(s, Effect(s, a));
  }

  /** Only the holder's thread is inside Lease.run. */
  predicate OneCall(s: Service) {
    forall l, m | l in s.calls && m in s.calls :: l == m
  }

  lemma HoldersOneCall(s: Service)
    requires HoldersOk(s)
    ensures OneCall(s)
  {
    forall l, m | l in s.calls && m in s.calls ensures l == m {
      assert LeaseOk(s, l) && LeaseOk(s, m);
      assert Holds(s, l) && Holds(s, m);
    }
  }

  // ---- the side of the children: taking and giving back leases

  predicate SameChildren(s: Service, s': Service) {
    && s'.state == s.state && s'.current == s.current && s'.children == s.children && s'.stopping == s.stopping
    && s'.respawn == s.respawn && s'.starting == s.starting && s'.started == s.started
    && s'.abandoned == s.abandoned && s'.installed == s.installed && s.next <= s'.next
  }

  /** A thread enters or leaves Lease.run: it is not responsible for any child. */
  predicate OnlyIdleCalls(s: Service, s': Service) {
    && (forall l | l in s'.calls :: s'.calls[l] == Entered || (l in s.calls && s.calls[l] == s'.calls[l]))
    && (forall l | l in s.calls :: s.calls[l].Finished? || (l in s'.calls && s.calls[l] == s'.calls[l]))
  }

  lemma LeaseStepFrame(s: Service, a: LeaseStep)
    requires LeaseEnabled(s, a)
    ensures SameChildren(s, LeaseEffect(s, a)) && OnlyIdleCalls(s, LeaseEffect(s, a))
  {
    match a
    case Acquire(t) =>
    case Admit(t) =>
    case Refuse(t) =>
    case EnterRun(l) =>
    case ExitRun(l) =>
    case Release(l) =>
    case FreeSlot(l) =>
  }

  lemma LeaseStepAccount(s: Service, a: LeaseStep)
    requires LeaseEnabled(s, a) && LeasesOk(s) && ServiceOk(s)
    ensures ServiceOk(LeaseEffect(s, a))
  {
    match a
    case Acquire(t) =>
    case Admit(t) =>
    case Refuse(t) =>
    case EnterRun(l) =>
    case ExitRun(l) =>
    case Release(l) =>
    case FreeSlot(l) =>
  }

  lemma IdleCallsKeep(s: Service, s': Service)
    requires SameChildren(s, s') && OnlyIdleCalls(s, s') && UnusedOk(s) && CallsOk(s) && BusyOk(s) && AliveOk(s)
    requires AbandonedOk(s) && RecoveryOk(s)
    ensures UnusedOk(s') && CallsOk(s') && BusyOk(s') && AliveOk(s') && AbandonedOk(s') && RecoveryOk(s')
  {
    assert forall c :: BeingLoaded(s', c) == BeingLoaded(s, c);
    forall l | l in s'.calls ensures CallOk(s', l) { if l in s.calls { assert CallOk(s, l); } }
    BusyWith(s, s');
    forall c | c in s'.children && s'.children[c].alive
      ensures s'.current == Some(c) || BeingLoaded(s', c) || c in s'.stopping
              || exists l | l in s'.calls :: s'.calls[l] == Killing(Some(c))
    {
      if exists l | l in s.calls :: s.calls[l] == Killing(Some(c)) {
        var l :| l in s.calls && s.calls[l] == Killing(Some(c));
        assert l in s'.calls;
      }
    }
    if s.state == Recovering && s.respawn == NoThread {
      var l :| l in s.calls && Reviver(s.calls[l]);
      assert l in s'.calls && Reviver(s'.calls[l]);
    }
  }

  lemma BusyWith(s: Service, s': Service)
    requires SameChildren(s, s') && OnlyIdleCalls(s, s') && BusyOk(s)
    ensures BusyOk(s')
  {
    forall c | c in s'.children && !Clean(s'.children[c]) && (s'.children[c].alive || s'.current == Some(c))
      ensures c in s'.stopping || exists l | l in s'.calls :: Handles(s', l, c)
    {
      if c !in s.stopping {
        var l :| l in s.calls && Handles(s, l, c);
        assert Handles(s', l, c);
      }
    }
  }

  lemma LeaseStepChildren(s: Service, a: LeaseStep)
    requires LeasesOk(s) && ChildrenOk(s) && LeaseEnabled(s, a)
    ensures ChildrenOk(LeaseEffect(s, a))
  {
    LeaseStepFrame(s, a);
    LeaseStepAccount(s, a);
    hide *;
    UnfoldChildren(s);
    IdleCallsKeep(s, LeaseEffect(s, a));
    FoldChildren(LeaseEffect(s, a));
  }

  lemma UnfoldChildren(s: Service)
    requires ChildrenOk(s)
    ensures ServiceOk(s) && UnusedOk(s) && CallsOk(s) && BusyOk(s) && AliveOk(s) && AbandonedOk(s) && RecoveryOk(s)
  {
  }

  lemma FoldChildren(s: Service)
    requires ServiceOk(s) && UnusedOk(s) && CallsOk(s) && BusyOk(s) && AliveOk(s) && AbandonedOk(s) && RecoveryOk(s)
    ensures ChildrenOk(s)
  {
  }

  // ---- steps outside the calls

  /** What became of a child without a request being sent to it. */
  ghost predicate Tamer(before: Child, after: Child) {
    && (after.alive ==> before.alive) && (before.joined ==> after.joined) && (Clean(before) ==> Clean(after))
    && (forall r :: AtMost(before, r) ==> AtMost(after, r))
  }

  /** A step of a thread outside Lease.run, or of a child. */
  ghost predicate OutsideStep(s: Service, s': Service) {
    && s'.calls == s.calls && s.installed <= s'.installed
    && (forall c | c in s.children :: c in s'.children && Tamer(s.children[c], s'.children[c]))
    && (forall c | c in s'.children && c !in s.children :: Clean(s'.children[c]))
    && (s'.current == s.current || s'.current == None
        || (s.current == None && s'.current.value !in s.installed && s'.current.value in s'.children
            && Clean(s'.children[s'.current.value])))
    && (forall c | c in s.children && Reach(s, c) :: Reach(s', c))
    && (forall c | c in s.stopping && c !in s'.stopping :: c in s'.children && !s'.children[c].alive && s'.current != Some(c))
  }

  lemma OutsideCalls(s: Service, s': Service)
    requires CallsOk(s) && OutsideStep(s, s')
    ensures CallsOk(s')
  {
    hide Clean, AtMost, Reach;
    forall l | l in s'.calls ensures CallOk(s', l) {
      assert CallOk(s, l);
      match s.calls[l]
      case Looked(seen, ready) =>
      case Waiting(d, r) =>
      case Killing(victim) =>
      case _ =>
    }
  }

  lemma OutsideBusy(s: Service, s': Service)
    requires BusyOk(s) && OutsideStep(s, s')
    ensures BusyOk(s')
  {
    hide Clean, AtMost;
    forall d | d in s'.children && !Clean(s'.children[d]) && (s'.children[d].alive || s'.current == Some(d))
      ensures d in s'.stopping || exists l | l in s'.calls :: Handles(s', l, d)
    {
      if d !in s.stopping {
        var l :| l in s.calls && Handles(s, l, d);
        if s.calls[l] == Failing && s.calls[l] != Killing(Some(d)) { assert Reach(s, d) && Reach(s', d); }
        assert d in s'.stopping || Handles(s', l, d);
      }
    }
  }

  lemma TamerSame(c: Child)
    ensures Tamer(c, c)
  {
  }

  lemma TamerDead(c: Child, open: bool)
    ensures Tamer(c, Dead(c)) && Tamer(c, Dead(c).(open := open)) && Tamer(c, c.(open := open))
  {
  }

  // ---- a child acts

  lemma AtMostStep(c: Child, r: Request, a: ChildStep)
    requires AtMost(c, r) && (a.Reads? ==> c.inbox != [] && c.working.None?) && (a.Replies? ==> c.working.Some?)
    ensures AtMost(ChildAfter(c, a), r)
  {
  }

  lemma ChildTamed(c: Child, a: ChildStep)
    requires c.alive && (a.Reads? ==> c.inbox != [] && c.working.None?) && (a.Replies? ==> c.working.Some?)
    ensures Tamer(c, ChildAfter(c, a)) && ChildAfter(c, a).open == c.open
  {
    assert Clean(c) ==> Clean(ChildAfter(c, a));
    forall r | AtMost(c, r) ensures AtMost(ChildAfter(c, a), r) { AtMostStep(c, r, a); }
  }

  lemma ChildStepChildren(s: Service, c: ChildId, a: ChildStep)
    requires ChildrenOk(s) && ChildEnabled(s, c, a)
    ensures ChildrenOk(Effect(s, OfChild(c, a)))
  {
    var after := ChildAfter(s.children[c], a);
    var s' := s.(children := s.children[c := after]);
    assert Effect(s, OfChild(c, a)) == s';
    ChildTamed(s.children[c], a);
    assert after.joined == s.children[c].joined;
    forall d | d in s.children && d != c ensures Tamer(s.children[d], s'.children[d]) { TamerSame(s.children[d]); }
    hide Effect, ChildAfter, AtMost, Clean, Tamer;
    assert Tamer(s.children[c], s'.children[c]);
    ReplacedOutside(s, c, after);
    UnfoldChildren(s);
    ReplacedRest(s, c, after);
    hide *;
    OutsideCalls(s, s');
    OutsideBusy(s, s');
    FoldChildren(s');
  }

  lemma ReplacedOutside(s: Service, c: ChildId, after: Child)
    requires c in s.children && Tamer(s.children[c], after)
    ensures OutsideStep(s, s.(children := s.children[c := after]))
  {
    var s' := s.(children := s.children[c := after]);
    hide AtMost, Clean;
    forall d | d in s.children ensures Tamer(s.children[d], s'.children[d]) {
      if d != c { TamerSame(s.children[d]); }
    }
    assert after.alive ==> s.children[c].alive;
    hide Tamer;
  }

  lemma ReplacedRest(s: Service, c: ChildId, after: Child)
    requires ServiceOk(s) && UnusedOk(s) && AliveOk(s) && AbandonedOk(s) && RecoveryOk(s)
    requires c in s.children && (c in s.installed || (Clean(s.children[c]) ==> Clean(after)))
    requires (after.alive ==> s.children[c].alive) && (Buried(s.children[c]) ==> Buried(after))
    ensures var s' := s.(children := s.children[c := after]);
            ServiceOk(s') && UnusedOk(s') && AliveOk(s') && AbandonedOk(s') && RecoveryOk(s')
  {
    var s' := s.(children := s.children[c := after]);
    assert forall d :: BeingLoaded(s', d) == BeingLoaded(s, d);
    hide Clean, BeingLoaded, Buried;
    ReplacedAccount(s, s', c);
    ReplacedAlive(s, s', c);
    hide ServiceOk, AliveOk, RecoveryOk;
    assert UnusedOk(s') && AbandonedOk(s');
  }

  lemma ReplacedAccount(s: Service, s': Service, c: ChildId)
    requires ServiceOk(s) && RecoveryOk(s) && c in s.children && c in s'.children
    requires s' == s.(children := s.children[c := s'.children[c]])
    ensures ServiceOk(s') && RecoveryOk(s')
  {
  }

  lemma ReplacedAlive(s: Service, s': Service, c: ChildId)
    requires AliveOk(s) && c in s.children && c in s'.children && (s'.children[c].alive ==> s.children[c].alive)
    requires s' == s.(children := s.children[c := s'.children[c]])
    requires forall d :: BeingLoaded(s', d) == BeingLoaded(s, d)
    ensures AliveOk(s')
  {
    hide BeingLoaded;
  }

  // ---- children are loaded

  /** Nothing happens to the children in use, except that a new one may take over. */
  predicate UsedSame(s: Service, s': Service) {
    && s'.calls == s.calls && s'.stopping == s.stopping && s'.abandoned == s.abandoned && s.installed <= s'.installed
    && (forall c | c in s.installed :: c in s.children && c in s'.children && s'.children[c] == s.children[c])
    && (forall c | c in s'.children && c !in s.installed :: Clean(s'.children[c]))
    && (s'.current == s.current || (s.current == None && s'.current.Some? && s'.current.value !in s.installed))
  }

  lemma UsedCalls(s: Service, s': Service)
    requires CallsOk(s) && UsedSame(s, s')
    ensures CallsOk(s')
  {
    hide AtMost, Clean;
    forall l | l in s'.calls ensures CallOk(s', l) {
      assert CallOk(s, l);
      match s.calls[l]
      case Looked(seen, ready) =>
      case Waiting(d, r) =>
      case Killing(victim) =>
      case _ =>
    }
  }

  lemma UsedBusy(s: Service, s': Service)
    requires BusyOk(s) && UsedSame(s, s')
    ensures BusyOk(s')
  {
    hide Clean;
    forall d | d in s'.children && !Clean(s'.children[d]) && (s'.children[d].alive || s'.current == Some(d))
      ensures d in s'.stopping || exists l | l in s'.calls :: Handles(s', l, d)
    {
      if d !in s.stopping {
        var l :| l in s.calls && Handles(s, l, d);
        assert Handles(s', l, d);
      }
    }
  }

  lemma UsedBuried(s: Service, s': Service)
    requires AbandonedOk(s) && UsedSame(s, s')
    ensures AbandonedOk(s')
  {
    hide Clean;
  }

  /** Loading threads: living children beyond those in use are the ones being loaded. */
  lemma UsedAlive(s: Service, s': Service)
    requires ServiceOk(s) && AliveOk(s) && UnusedOk(s) && UsedSame(s, s')
    requires forall c | c in s'.children && c !in s.installed && s'.children[c].alive ::
        BeingLoaded(s', c) || s'.current == Some(c)
    ensures AliveOk(s')
  {
    hide Clean;
    forall c | c in s'.children && s'.children[c].alive
      ensures s'.current == Some(c) || BeingLoaded(s', c) || c in s'.stopping
              || exists l | l in s'.calls :: s'.calls[l] == Killing(Some(c))
    {
      if c in s.installed { assert !BeingLoaded(s, c); }
    }
  }

  /** What a loading thread owes: the children in use, and those not yet in use. */
  ghost predicate LoaderStep(s: Service, s': Service) {
    && UsedSame(s, s') && UnusedOk(s') && ServiceOk(s')
    && (forall c | c in s'.children && c !in s.installed && s'.children[c].alive :: BeingLoaded(s', c) || s'.current == Some(c))
  }

  lemma SpawnStopped(s: Service)
    requires ServiceOk(s) && UnusedOk(s) && SpawnEnabled(s, Spawn) && s.state == Stopped
    ensures LoaderStep(s, SpawnEffect(s, Spawn))
  {
    assert s.starting == None;
  }

  /** A new child in the hands of the thread that loads it. */
  lemma NewChild(s: Service, s': Service)
    requires ServiceOk(s) && UnusedOk(s) && ServiceOk(s') && s'.children == s.children[s.next := LOADING]
    requires s'.calls == s.calls && s'.stopping == s.stopping && s'.abandoned == s.abandoned && s'.installed == s.installed
    requires s'.current == s.current
    requires forall c :: !BeingLoaded(s, c)
    requires forall c :: BeingLoaded(s', c) <==> c == s.next
    ensures LoaderStep(s, s')
  {
    hide BeingLoaded;
    assert s.next !in s.children;
  }

  lemma SpawnNew(s: Service)
    requires ServiceOk(s) && UnusedOk(s) && SpawnEnabled(s, Spawn) && s.state != Stopped
    ensures LoaderStep(s, SpawnEffect(s, Spawn))
  {
    var s' := SpawnEffect(s, Spawn);
    assert s.starting == None;
    hide LoaderStep, UnusedOk;
    assert ServiceOk(s');
    NewChild(s, s');
  }

  lemma SpawnGivenUp(s: Service)
    requires ServiceOk(s) && UnusedOk(s) && SpawnEnabled(s, SpawnFailed)
    ensures LoaderStep(s, SpawnEffect(s, SpawnFailed))
  {
    assert s.starting == None && BeingLoaded(s, s.respawn.child);
  }

  lemma SpawnLoaded(s: Service)
    requires ServiceOk(s) && UnusedOk(s) && SpawnEnabled(s, SpawnReady)
    ensures LoaderStep(s, SpawnEffect(s, SpawnReady))
  {
    assert BeingLoaded(s, s.respawn.child);
  }

  lemma InstallStopped(s: Service)
    requires ServiceOk(s) && UnusedOk(s) && SpawnEnabled(s, Install) && s.state == Stopped
    ensures LoaderStep(s, Installed(s))
  {
    assert s.starting == None && BeingLoaded(s, s.respawn.child);
  }

  lemma InstallNew(s: Service)
    requires ServiceOk(s) && UnusedOk(s) && SpawnEnabled(s, Install) && s.state != Stopped
    ensures LoaderStep(s, Installed(s))
  {
    assert s.starting == None && BeingLoaded(s, s.respawn.child);
  }

  lemma Surrendered(s: Service)
    requires ServiceOk(s) && UnusedOk(s) && SpawnEnabled(s, Surrender)
    ensures LoaderStep(s, SpawnEffect(s, Surrender))
  {
    if s.state == Stopped { } else { }
  }

  lemma SpawnLoader(s: Service, a: SpawnStep)
    requires ServiceOk(s) && UnusedOk(s) && SpawnEnabled(s, a)
    ensures LoaderStep(s, SpawnEffect(s, a))
  {
    hide SpawnEnabled, LoaderStep, Installed;
    match a
    case Spawn => if s.state == Stopped { SpawnStopped(s); } else { SpawnNew(s); }
    case SpawnFailed => SpawnGivenUp(s);
    case SpawnReady => SpawnLoaded(s);
    case Install => if s.state == Stopped { InstallStopped(s); } else { InstallNew(s); }
    case Surrender => Surrendered(s);
  }

  /** From a loading thread's step to the whole invariant. */
  lemma LoaderKeeps(s: Service, s': Service)
    requires ChildrenOk(s) && LoaderStep(s, s') && RecoveryOk(s')
    ensures ChildrenOk(s')
  {
    hide UsedSame, UnusedOk, ServiceOk, CallsOk, BusyOk, AliveOk, AbandonedOk, RecoveryOk;
    UsedCalls(s, s');
    UsedBusy(s, s');
    UsedBuried(s, s');
    UsedAlive(s, s');
  }

  lemma SpawnRecovery(s: Service, a: SpawnStep)
    requires ServiceOk(s) && SpawnEnabled(s, a)
    ensures RecoveryOk(SpawnEffect(s, a))
  {
    match a
    case Spawn =>
    case SpawnFailed =>
    case SpawnReady =>
    case Install => if s.state == Stopped { } else { }
    case Surrender =>
  }

  lemma SpawnStepChildren(s: Service, a: SpawnStep)
    requires ChildrenOk(s) && SpawnEnabled(s, a)
    ensures ChildrenOk(SpawnEffect(s, a))
  {
    hide *;
    UnfoldChildren(s);
    SpawnLoader(s, a);
    SpawnRecovery(s, a);
    LoaderKeeps(s, SpawnEffect(s, a));
  }

  // ---- start, stop and admission

  lemma StartBegins(s: Service)
    requires ServiceOk(s) && UnusedOk(s) && ServiceEnabled(s, StartService)
    ensures LoaderStep(s, ServiceEffect(s, StartService)) && RecoveryOk(ServiceEffect(s, StartService))
  {
    var s' := ServiceEffect(s, StartService);
    assert s.starting == None;
    hide LoaderStep, UnusedOk;
    assert ServiceOk(s');
    NewChild(s, s');
  }

  lemma StartEnds(s: Service, a: ServiceStep)
    requires ServiceOk(s) && UnusedOk(s) && ServiceEnabled(s, a) && (a.StartLoaded? || a.StartFailed?)
    ensures LoaderStep(s, ServiceEffect(s, a)) && RecoveryOk(ServiceEffect(s, a))
  {
    assert BeingLoaded(s, s.starting.value);
    if a.StartLoaded? { } else { }
  }

  /** The rest of the invariant, for the steps of stop() and try_acquire. */
  ghost predicate RestOk(s: Service) {
    ServiceOk(s) && UnusedOk(s) && AliveOk(s) && AbandonedOk(s) && RecoveryOk(s)
  }

  lemma OutsideKeeps(s: Service, s': Service)
    requires ChildrenOk(s) && OutsideStep(s, s') && RestOk(s')
    ensures ChildrenOk(s')
  {
    hide OutsideStep, ServiceOk, UnusedOk, CallsOk, BusyOk, AliveOk, AbandonedOk, RecoveryOk;
    OutsideCalls(s, s');
    OutsideBusy(s, s');
  }

  lemma StopTakes(s: Service)
    requires ChildrenOk(s) && ServiceEnabled(s, StopService)
    ensures ChildrenOk(ServiceEffect(s, StopService))
  {
    var s' := ServiceEffect(s, StopService);
    StopTakesRest(s);
    forall c | c in s.children ensures Tamer(s.children[c], s'.children[c]) { TamerSame(s.children[c]); }
    hide Tamer, Clean, RestOk;
    assert OutsideStep(s, s');
    OutsideKeeps(s, s');
  }

  lemma StopTakesRest(s: Service)
    requires ChildrenOk(s) && ServiceEnabled(s, StopService)
    ensures RestOk(ServiceEffect(s, StopService))
  {
    var s' := ServiceEffect(s, StopService);
    StopShape(s);
    hide ServiceEffect, ServiceEnabled;
    assert forall c :: BeingLoaded(s', c) == BeingLoaded(s, c);
    hide BeingLoaded, CallsOk, BusyOk, Clean;
    if s.current.Some? { } else { }
  }

  lemma StopShape(s: Service)
    requires ServiceOk(s) && ServiceEnabled(s, StopService)
    ensures s.started && s.state != Starting
    ensures s.current.Some? ==>
              && s.stopping == map[]
              && ServiceEffect(s, StopService) == s.(state := Stopped, current := None, stopping := map[s.current.value := false])
    ensures s.current.None? ==> ServiceEffect(s, StopService) == s.(state := Stopped)
  {
  }

  lemma StopKills(s: Service, c: ChildId)
    requires ChildrenOk(s) && ServiceEnabled(s, StopJoined(c))
    ensures ChildrenOk(ServiceEffect(s, StopJoined(c)))
  {
    var s' := ServiceEffect(s, StopJoined(c));
    StopKillsRest(s, c);
    TamerDead(s.children[c], true);
    forall d | d in s.children ensures Tamer(s.children[d], s'.children[d]) { if d != c { TamerSame(s.children[d]); } }
    hide Tamer, Clean, RestOk;
    assert OutsideStep(s, s');
    OutsideKeeps(s, s');
  }

  lemma StopKillsRest(s: Service, c: ChildId)
    requires ChildrenOk(s) && ServiceEnabled(s, StopJoined(c))
    ensures RestOk(ServiceEffect(s, StopJoined(c)))
  {
    var s' := ServiceEffect(s, StopJoined(c));
    assert forall d :: BeingLoaded(s', d) == BeingLoaded(s, d);
    hide BeingLoaded, CallsOk, BusyOk;
  }

  lemma StopCloses(s: Service, c: ChildId)
    requires ChildrenOk(s) && ServiceEnabled(s, StopClosed(c))
    ensures ChildrenOk(ServiceEffect(s, StopClosed(c)))
  {
    var s' := ServiceEffect(s, StopClosed(c));
    StopClosesRest(s, c);
    TamerDead(s.children[c], false);
    forall d | d in s.children ensures Tamer(s.children[d], s'.children[d]) { if d != c { TamerSame(s.children[d]); } }
    hide Tamer, Clean, RestOk;
    assert s.current == None && !s'.children[c].alive;
    assert OutsideStep(s, s');
    OutsideKeeps(s, s');
  }

  lemma StopClosesRest(s: Service, c: ChildId)
    requires ChildrenOk(s) && ServiceEnabled(s, StopClosed(c))
    ensures RestOk(ServiceEffect(s, StopClosed(c)))
  {
    var s' := ServiceEffect(s, StopClosed(c));
    assert forall d :: BeingLoaded(s', d) == BeingLoaded(s, d);
    hide BeingLoaded, CallsOk, BusyOk, Clean;
  }

  /** try_acquire looks at the service; a child that died while idle gives up its place before anything is sent. */
  lemma ExamineKeeps(s: Service, t: ThreadId)
    requires ChildrenOk(s) && ServiceEnabled(s, Examine(t))
    ensures ChildrenOk(ServiceEffect(s, Examine(t)))
  {
    var s' := ServiceEffect(s, Examine(t));
    ExamineShape(s, t);
    hide ServiceEffect, ServiceEnabled;
    UnfoldChildren(s);
    hide ServiceOk, UnusedOk, CallsOk, BusyOk, AliveOk, AbandonedOk, RecoveryOk, RestOk, Tamer, Clean, OutsideStep;
    if s' == s.(admitting := s.admitting[t := Deciding(s.state)]) {
      AdmissionOnly(s, t);
      AdmissionOutside(s, s');
    } else {
      DropOutside(s, s');
      assert RestOk(s) by { RestIs(s); }
      DropRest(s, s', t);
    }
    OutsideKeeps(s, s');
  }

  lemma RestIs(s: Service)
    requires ServiceOk(s) && UnusedOk(s) && AliveOk(s) && AbandonedOk(s) && RecoveryOk(s)
    ensures RestOk(s)
  {
  }

  lemma ExamineShape(s: Service, t: ThreadId)
    requires ServiceOk(s) && ServiceEnabled(s, Examine(t))
    ensures var s' := ServiceEffect(s, Examine(t));
            && t in s.admitting
            && (s' == s.(admitting := s.admitting[t := Deciding(s.state)])
                || (s.state == Ready && s.current.Some? && s.current.value in s.children && !s.children[s.current.value].alive
                    && s' == s.(state := Recovering, current := None, respawn := Trying(0),
                                admitting := s.admitting[t := Deciding(Recovering)])))
  {
    if s.state == Ready && !s.children[s.current.value].alive { } else { }
  }

  lemma AdmissionOutside(s: Service, s': Service)
    requires s' == s.(admitting := s'.admitting)
    ensures OutsideStep(s, s')
  {
    forall c | c in s.children ensures Tamer(s.children[c], s'.children[c]) { TamerSame(s.children[c]); }
    hide Tamer, Clean;
  }

  lemma AdmissionOnly(s: Service, t: ThreadId)
    requires ChildrenOk(s) && t in s.admitting
    ensures RestOk(s.(admitting := s.admitting[t := Deciding(s.state)]))
  {
    var s' := s.(admitting := s.admitting[t := Deciding(s.state)]);
    assert forall d :: BeingLoaded(s', d) == BeingLoaded(s, d);
    hide BeingLoaded, CallsOk, BusyOk, Clean;
  }

  lemma DropOutside(s: Service, s': Service)
    requires s.current.Some? && s.current.value in s.children && !s.children[s.current.value].alive
    requires s'.current == None && s'.children == s.children && s'.calls == s.calls && s'.stopping == s.stopping
    requires s'.installed == s.installed
    ensures OutsideStep(s, s')
  {
    forall c | c in s.children ensures Tamer(s.children[c], s'.children[c]) { TamerSame(s.children[c]); }
    hide Tamer, Clean;
  }

  lemma DropRest(s: Service, s': Service, t: ThreadId)
    requires RestOk(s) && s.state == Ready && s.current.Some? && t in s.admitting
    requires s.current.value in s.children && !s.children[s.current.value].alive
    requires s' == s.(state := Recovering, current := None, respawn := Trying(0), admitting := s.admitting[t := Deciding(Recovering)])
    ensures RestOk(s')
  {
    assert s.respawn == NoThread;
    assert forall d :: BeingLoaded(s', d) == BeingLoaded(s, d);
    hide BeingLoaded, Clean;
  }

  lemma ServiceStepChildren(s: Service, a: ServiceStep)
    requires ChildrenOk(s) && ServiceEnabled(s, a)
    ensures ChildrenOk(ServiceEffect(s, a))
  {
    hide *;
    UnfoldChildren(s);
    match a
    case StartService =>
      StartBegins(s);
      LoaderKeeps(s, ServiceEffect(s, a));
    case StartLoaded =>
      StartEnds(s, a);
      LoaderKeeps(s, ServiceEffect(s, a));
    case StartFailed =>
      StartEnds(s, a);
      LoaderKeeps(s, ServiceEffect(s, a));
    case StopService => StopTakes(s);
    case StopJoined(c) => StopKills(s, c);
    case StopClosed(c) => StopCloses(s, c);
    case Examine(t) => ExamineKeeps(s, t);
  }

  // ---- inside Lease.run

  /** The call leaves a phase in which it was not recovering anything. */
  lemma QuietPhase(s: Service, l: LeaseId, p: Phase)
    requires RestOk(s) && OneCall(s) && l in s.calls && !Reviver(s.calls[l])
    ensures RestOk(WithPhase(s, l, p))
  {
    var s' := WithPhase(s, l, p);
    assert forall d :: BeingLoaded(s', d) == BeingLoaded(s, d);
    hide BeingLoaded, Clean;
    assert forall m | m in s.calls :: m == l;
  }

  lemma SingleCall(s: Service, l: LeaseId)
    requires OneCall(s) && l in s.calls && CallOk(s, l)
    ensures CallsOk(s)
  {
    hide CallOk;
  }

  /** Who answers for a busy child when the only call is at `l`. */
  predicate BusyBy(s: Service, l: LeaseId) {
    forall c | c in s.children && !Clean(s.children[c]) && (s.children[c].alive || s.current == Some(c)) ::
      c in s.stopping || Handles(s, l, c)
  }

  lemma SingleBusy(s: Service, l: LeaseId)
    requires OneCall(s) && l in s.calls
    ensures BusyOk(s) <==> BusyBy(s, l)
  {
    hide Clean, Handles;
    assert forall m | m in s.calls :: m == l;
    if BusyOk(s) {
      forall c | c in s.children && !Clean(s.children[c]) && (s.children[c].alive || s.current == Some(c))
        ensures c in s.stopping || Handles(s, l, c)
      {
        if c !in s.stopping {
          var m :| m in s.calls && Handles(s, m, c);
        }
      }
    }
  }

  /** What one step of the only call has to show. */
  lemma CallStepKeeps(s: Service, l: LeaseId)
    requires OneCall(s) && l in s.calls && RestOk(s) && CallOk(s, l) && BusyBy(s, l)
    ensures ChildrenOk(s)
  {
    SingleCall(s, l);
    SingleBusy(s, l);
    hide CallsOk, BusyOk, BusyBy, CallOk, ServiceOk, UnusedOk, AliveOk, AbandonedOk, RecoveryOk;
  }

  /** Before anything is sent, all children the call could reach are idle. */
  lemma NothingInFlight(s: Service, l: LeaseId)
    requires ServiceOk(s) && BusyBy(s, l) && l in s.calls && (s.calls[l] == Entered || s.calls[l] == Failing) && s.current.Some?
    ensures s.current.value in s.children && Sole(s, s.current.value)
    ensures s.calls[l] == Entered ==> Clean(s.children[s.current.value])
  {
    assert s.stopping == map[];
    hide Clean;
  }

  lemma LookKeeps(s: Service, l: LeaseId)
    requires ServiceOk(s) && RestOk(s) && OneCall(s) && BusyBy(s, l) && CallEnabled(s, l, Look)
    ensures ChildrenOk(CallEffect(s, l, Look))
  {
    var s' := CallEffect(s, l, Look);
    if s.current.Some? { NothingInFlight(s, l); }
    QuietPhase(s, l, s'.calls[l]);
    hide Clean, RestOk;
    assert OneCall(s');
    CallStepKeeps(s', l);
  }

  lemma NotSentKeeps(s: Service, l: LeaseId)
    requires RestOk(s) && OneCall(s) && BusyBy(s, l) && CallEnabled(s, l, NotSent)
    ensures ChildrenOk(CallEffect(s, l, NotSent))
  {
    var s' := CallEffect(s, l, NotSent);
    QuietPhase(s, l, s'.calls[l]);
    hide Clean, RestOk;
    assert OneCall(s');
    CallStepKeeps(s', l);
  }

  lemma GiveUpKeeps(s: Service, l: LeaseId)
    requires RestOk(s) && OneCall(s) && BusyBy(s, l) && CallEnabled(s, l, GiveUp) && CallOk(s, l)
    ensures ChildrenOk(CallEffect(s, l, GiveUp))
  {
    var s' := CallEffect(s, l, GiveUp);
    QuietPhase(s, l, s'.calls[l]);
    hide Clean, RestOk, AtMost;
    assert OneCall(s');
    CallStepKeeps(s', l);
  }

  /** A call changes the child it waits for. */
  lemma CallChild(s: Service, l: LeaseId, c: ChildId, after: Child, p: Phase)
    requires RestOk(s) && OneCall(s) && l in s.calls && !Reviver(s.calls[l]) && c in s.installed && c in s.children
    requires after.alive == s.children[c].alive && after.joined == s.children[c].joined && after.open == s.children[c].open
    ensures RestOk(WithPhase(WithChild(s, c, after), l, p))
  {
    ReplacedRest(s, c, after);
    hide ServiceOk, UnusedOk, AliveOk, AbandonedOk, RecoveryOk;
    QuietPhase(WithChild(s, c, after), l, p);
  }

  lemma MoreIds(s: Service)
    requires RestOk(s)
    ensures RestOk(s.(next := s.next + 1))
  {
    var s' := s.(next := s.next + 1);
    assert forall d :: BeingLoaded(s', d) == BeingLoaded(s, d);
    hide BeingLoaded, Clean;
  }

  lemma SendRest(s: Service, l: LeaseId, c: ChildId, after: Child, p: Phase)
    requires RestOk(s) && OneCall(s) && l in s.calls && !Reviver(s.calls[l]) && c in s.installed && c in s.children
    requires after.alive == s.children[c].alive && after.joined == s.children[c].joined && after.open == s.children[c].open
    ensures RestOk(WithPhase(WithChild(s, c, after), l, p).(next := s.next + 1))
  {
    hide RestOk;
    CallChild(s, l, c, after, p);
    MoreIds(WithPhase(WithChild(s, c, after), l, p));
  }

  lemma SendCall(s: Service, l: LeaseId, op: nat)
    requires CallEnabled(s, l, Send(op)) && CallOk(s, l)
    ensures CallOk(CallEffect(s, l, Send(op)), l)
  {
    var s' := CallEffect(s, l, Send(op));
    var c, request := s.calls[l].seen.value, Request(s.next, op);
    assert s'.children[c] == s.children[c].(inbox := s.children[c].inbox + [request]);
    assert s'.children[c].inbox == [request] && AtMost(s'.children[c], request);
    hide Clean, AtMost;
    assert Sole(s', c);
  }

  lemma SendBusy(s: Service, l: LeaseId, op: nat)
    requires BusyBy(s, l) && CallEnabled(s, l, Send(op))
    ensures BusyBy(CallEffect(s, l, Send(op)), l)
  {
    hide Clean;
  }

  lemma SendKeeps(s: Service, l: LeaseId, op: nat)
    requires RestOk(s) && OneCall(s) && BusyBy(s, l) && CallEnabled(s, l, Send(op)) && CallOk(s, l)
    ensures ChildrenOk(CallEffect(s, l, Send(op)))
  {
    var s' := CallEffect(s, l, Send(op));
    var c := s.calls[l].seen.value;
    SendCall(s, l, op);
    SendBusy(s, l, op);
    assert OneCall(s');
    assert s' == WithPhase(WithChild(s, c, s'.children[c]), l, s'.calls[l]).(next := s.next + 1);
    hide RestOk, BusyBy, Sole, Clean, Reach;
    SendRest(s, l, c, s'.children[c], s'.calls[l]);
    hide CallOk;
    CallStepKeeps(s', l);
  }

  lemma ReceiveKeeps(s: Service, l: LeaseId)
    requires RestOk(s) && OneCall(s) && BusyBy(s, l) && CallEnabled(s, l, Receive) && CallOk(s, l)
    ensures ChildrenOk(CallEffect(s, l, Receive))
    ensures var request := s.calls[l].request;
            CallEffect(s, l, Receive).calls[l] == Finished(Some((request, Reply(request.id, request))))
  {
    var s' := CallEffect(s, l, Receive);
    var c := s.calls[l].child;
    CallChild(s, l, c, s'.children[c], s'.calls[l]);
    assert s' == WithPhase(WithChild(s, c, s'.children[c]), l, s'.calls[l]);
    hide RestOk;
    assert OneCall(s');
    assert Clean(s'.children[c]);
    CallStepKeeps(s', l);
  }

  lemma DetachKeeps(s: Service, l: LeaseId)
    requires RestOk(s) && OneCall(s) && BusyBy(s, l) && CallEnabled(s, l, Detach) && s.state != Starting
    ensures ChildrenOk(Detached(s, l))
  {
    var s' := Detached(s, l);
    if s.current.Some? { NothingInFlight(s, l); }
    DetachRest(s, l);
    hide RestOk, Clean;
    assert OneCall(s');
    CallStepKeeps(s', l);
  }

  lemma DetachRest(s: Service, l: LeaseId)
    requires RestOk(s) && OneCall(s) && CallEnabled(s, l, Detach) && s.state != Starting
    ensures RestOk(Detached(s, l))
  {
    var s' := Detached(s, l);
    assert forall d :: BeingLoaded(s', d) == BeingLoaded(s, d);
    hide BeingLoaded, Clean;
    assert forall m | m in s.calls :: m == l;
    assert s'.calls[l] == Killing(s.current) && Reviver(s'.calls[l]);
    if s.current.Some? { } else { }
  }

  lemma KillBusy(s: Service, l: LeaseId)
    requires BusyBy(s, l) && CallEnabled(s, l, Kill) && CallOk(s, l)
    ensures BusyBy(CallEffect(s, l, Kill), l)
  {
    if s.calls[l].victim.Some? { } else { }
  }

  lemma KillKeeps(s: Service, l: LeaseId)
    requires RestOk(s) && OneCall(s) && BusyBy(s, l) && CallEnabled(s, l, Kill) && CallOk(s, l)
    ensures ChildrenOk(CallEffect(s, l, Kill))
  {
    var s' := CallEffect(s, l, Kill);
    KillRest(s, l);
    KillBusy(s, l);
    assert OneCall(s');
    hide RestOk, BusyBy;
    assert CallOk(s', l);
    hide CallOk, CallEffect;
    CallStepKeeps(s', l);
  }

  lemma KillPhase(s: Service, l: LeaseId)
    requires RestOk(s) && OneCall(s) && l in s.calls && s.calls[l].Killing?
    requires s.calls[l].victim.Some? && s.calls[l].victim.value in s.children ==> !s.children[s.calls[l].victim.value].alive
    ensures RestOk(WithPhase(s, l, Closing(s.calls[l].victim)))
  {
    var s' := WithPhase(s, l, Closing(s.calls[l].victim));
    assert forall m | m in s.calls :: m == l;
    assert s'.calls[l] == Closing(s.calls[l].victim) && Reviver(s'.calls[l]);
    assert forall d :: BeingLoaded(s', d) == BeingLoaded(s, d);
    hide BeingLoaded, Clean;
  }

  lemma KillRest(s: Service, l: LeaseId)
    requires RestOk(s) && OneCall(s) && CallEnabled(s, l, Kill) && CallOk(s, l)
    ensures RestOk(CallEffect(s, l, Kill))
  {
    var victim := s.calls[l].victim;
    if victim.Some? {
      var after := Dead(s.children[victim.value]);
      ReplacedRest(s, victim.value, after);
      hide ServiceOk, UnusedOk, AliveOk, AbandonedOk, RecoveryOk;
      KillPhase(WithChild(s, victim.value, after), l);
    } else {
      hide ServiceOk, UnusedOk, AliveOk, AbandonedOk, RecoveryOk;
      KillPhase(s, l);
    }
  }

  lemma CloseBusy(s: Service, l: LeaseId)
    requires BusyBy(s, l) && CallEnabled(s, l, Close) && CallOk(s, l)
    ensures BusyBy(CallEffect(s, l, Close), l)
  {
    if s.calls[l].victim.Some? { } else { }
  }

  lemma CloseKeeps(s: Service, l: LeaseId)
    requires RestOk(s) && OneCall(s) && BusyBy(s, l) && CallEnabled(s, l, Close) && CallOk(s, l)
    ensures ChildrenOk(CallEffect(s, l, Close))
  {
    var s' := CallEffect(s, l, Close);
    CloseRest(s, l);
    CloseBusy(s, l);
    assert OneCall(s');
    hide RestOk, BusyBy;
    assert CallOk(s', l);
    hide CallOk, CallEffect;
    CallStepKeeps(s', l);
  }

  lemma ClosePhase(s: Service, l: LeaseId)
    requires RestOk(s) && OneCall(s) && l in s.calls && s.calls[l].Closing?
    requires s.calls[l].victim.Some? && s.calls[l].victim.value in s.children ==> Buried(s.children[s.calls[l].victim.value])
    ensures RestOk(WithPhase(s, l, Reviving))
  {
    var s' := WithPhase(s, l, Reviving);
    assert forall m | m in s.calls :: m == l;
    assert s'.calls[l] == Reviving && Reviver(s'.calls[l]);
    assert forall d :: BeingLoaded(s', d) == BeingLoaded(s, d);
    hide BeingLoaded, Clean;
  }

  lemma CloseRest(s: Service, l: LeaseId)
    requires RestOk(s) && OneCall(s) && CallEnabled(s, l, Close) && CallOk(s, l)
    ensures RestOk(CallEffect(s, l, Close))
  {
    var victim := s.calls[l].victim;
    if victim.Some? {
      var after := s.children[victim.value].(open := false);
      ReplacedRest(s, victim.value, after);
      hide ServiceOk, UnusedOk, AliveOk, AbandonedOk, RecoveryOk;
      ClosePhase(WithChild(s, victim.value, after), l);
    } else {
      hide ServiceOk, UnusedOk, AliveOk, AbandonedOk, RecoveryOk;
      ClosePhase(s, l);
    }
  }

  lemma ReviveKeeps(s: Service, l: LeaseId)
    requires RestOk(s) && OneCall(s) && BusyBy(s, l) && CallEnabled(s, l, Revive)
    ensures ChildrenOk(CallEffect(s, l, Revive))
  {
    var s' := CallEffect(s, l, Revive);
    ReviveRest(s, l);
    hide RestOk, Clean;
    assert OneCall(s');
    CallStepKeeps(s', l);
  }

  lemma ReviveRest(s: Service, l: LeaseId)
    requires RestOk(s) && OneCall(s) && CallEnabled(s, l, Revive)
    ensures RestOk(CallEffect(s, l, Revive))
  {
    var s' := CallEffect(s, l, Revive);
    assert forall m | m in s.calls :: m == l;
    assert forall d :: BeingLoaded(s', d) == BeingLoaded(s, d);
    hide BeingLoaded, Clean;
    if s.state == Recovering { } else { }
  }

  lemma CallStepChildren(s: Service, l: LeaseId, a: CallStep)
    requires HoldersOk(s) && ChildrenOk(s) && CallEnabled(s, l, a)
    ensures ChildrenOk(CallEffect(s, l, a))
  {
    HoldersOneCall(s);
    assert l in s.calls;
    NoCallWhileStarting(s, l);
    UnfoldChildren(s);
    SingleBusy(s, l);
    assert RestOk(s) && CallOk(s, l);
    hide *;
    match a
    case Look => LookKeeps(s, l);
    case Send(op) => SendKeeps(s, l, op);
    case NotSent => NotSentKeeps(s, l);
    case Receive => ReceiveKeeps(s, l);
    case GiveUp => GiveUpKeeps(s, l);
    case Detach => DetachKeeps(s, l);
    case Kill => KillKeeps(s, l);
    case Close => CloseKeeps(s, l);
    case Revive => ReviveKeeps(s, l);
  }

  lemma NoCallWhileStarting(s: Service, l: LeaseId)
    requires HoldersOk(s) && ChildrenOk(s) && l in s.calls
    ensures s.state != Starting
  {
    assert l in s.leases;
    hide CallsOk, BusyOk, AliveOk, AbandonedOk, UnusedOk, RecoveryOk;
  }

  /** Every step of every thread keeps the invariant. */
  lemma StepKeeps(s: Service, a: Action)
    requires ServiceInv(s) && Enabled(s, a)
    ensures ServiceInv(Effect(s, a))
  {
    StepKeepsHolders(s, a);
    LeasesAre(s);
    hide HoldersOk, ChildrenOk, LeaseEnabled, LeaseEffect, CallEnabled, CallEffect, ServiceEnabled, ServiceEffect,
         SpawnEnabled, SpawnEffect, LeasesOk;
    match a
    case OfLease(step) => LeaseStepChildren(s, step);
    case OfCall(l, step) => CallStepChildren(s, l, step);
    case OfService(step) => ServiceStepChildren(s, step);
    case OfSpawn(step) => SpawnStepChildren(s, step);
    case OfChild(c, step) => ChildStepChildren(s, c, step);
  }

  lemma LeasesAre(s: Service)
    requires HoldersOk(s)
    ensures LeasesOk(s)
  {
  }
}
