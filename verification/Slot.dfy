/** The processing slot (src/backend/app/processing/slot.py) and the child behind it, as a state machine.
  *
  * A step is one critical section, one pipe operation or one action of a child process; every thread
  * stops between its steps for as long as it likes. `_proc` and `_conn` are always set together, so
  * one field names the current child, whose pipe is part of it. A deadline may pass and a child may
  * die at any moment. Installing a replacement and ending the thread that loaded it are one step,
  * start() runs once, and stop() does not overlap it.
  */
module Slot {
  import opened Wrappers

  type ChildId = nat
  type LeaseId = nat
  type ThreadId = nat

  const RESPAWN_ATTEMPTS: nat := 3

  datatype Request = Request(id: nat, op: nat)

  /** The child's answer: the id it echoes, and (history) the request it was computed for. */
  datatype Reply = Reply(id: nat, to: Request)

  /** A child process and the parent's end of its pipe. */
  datatype Child = Child(alive: bool, joined: bool, open: bool,
                         inbox: seq<Request>, working: Option<Request>, outbox: seq<Reply>)

  const LOADING := Child(true, false, true, [], None, [])

  datatype ServiceState = Stopped | Starting | Ready | Recovering | Failed

  /** The flags of a Lease. */
  datatype Lease = Lease(running: bool, releaseRequested: bool, released: bool)

  const NEW_LEASE := Lease(false, false, false)

  /** Where the thread inside Lease.run is. */
  datatype Phase =
    | Entered
    | Looked(seen: Option<ChildId>, ready: bool)
    | Waiting(child: ChildId, request: Request)
    | Failing                                  // about to call _terminate_and_recover
    | Killing(victim: Option<ChildId>)
    | Closing(victim: Option<ChildId>)
    | Reviving
    | Finished(result: Option<(Request, Reply)>)

  datatype Admission = Checking | Deciding(state: ServiceState)

  datatype Respawn = NoThread | Trying(attempt: nat) | Loading(attempt: nat, child: ChildId) | Loaded(child: ChildId)

  datatype Service = Service(
    slot: bool,                               // the lock is taken
    state: ServiceState, current: Option<ChildId>,
    children: map<ChildId, Child>,
    leases: map<LeaseId, Lease>, calls: map<LeaseId, Phase>,
    freeing: set<LeaseId>,                    // threads between marking the lease released and releasing the lock
    admitting: map<ThreadId, Admission>,      // threads inside try_acquire that hold the lock
    respawn: Respawn, starting: Option<ChildId>, started: bool,
    stopping: map<ChildId, bool>,             // children in the hands of stop(); true once joined
    next: nat,
    // history
    freed: multiset<LeaseId>,                 // releases of the lock on behalf of a lease
    abandoned: set<ChildId>,                  // children detached by _terminate_and_recover
    installed: set<ChildId>)                  // children that have been current

  /** Taking a lease, using it, giving it back. */
  datatype LeaseStep =
    | Acquire(thread: ThreadId) | Admit(thread: ThreadId) | Refuse(thread: ThreadId)
    | EnterRun(lease: LeaseId) | ExitRun(lease: LeaseId) | Release(lease: LeaseId) | FreeSlot(lease: LeaseId)

  /** Inside Lease.run: _call and _terminate_and_recover. */
  datatype CallStep = Look | Send(op: nat) | NotSent | Receive | GiveUp | Detach | Kill | Close | Revive

  /** start(), stop() and the locked part of try_acquire. */
  datatype ServiceStep =
    | StartService | StartLoaded | StartFailed | StopService | StopJoined(child: ChildId) | StopClosed(child: ChildId)
    | Examine(thread: ThreadId)

  /** _respawn_loop */
  datatype SpawnStep = Spawn | SpawnFailed | SpawnReady | Install | Surrender

  /** serve(), or a crash. */
  datatype ChildStep = Reads | Replies | Dies

  datatype Action =
    | OfLease(lease: LeaseStep)
    | OfCall(holder: LeaseId, call: CallStep)
    | OfService(service: ServiceStep)
    | OfSpawn(spawn: SpawnStep)
    | OfChild(child: ChildId, act: ChildStep)

  // ---- the critical sections

  /** The guard of Lease.run. */
  predicate MayRun(l: Lease) {
    !l.released && !l.releaseRequested && !l.running
  }

  /** The finally block of Lease.run: the flags it leaves, and whether it frees the slot. */
  function Exited(l: Lease): (Lease, bool) {
    var freeNow := l.releaseRequested && !l.released;
    (l.(running := false, released := l.released || freeNow), freeNow)
  }

  /** The locked part of Lease.release. */
  function ReleasedBy(l: Lease): (Lease, bool) {
    if l.released then (l, false)
    else if l.running then (l.(releaseRequested := true), false)
    else (l.(released := true), true)
  }

  /** What the slot holder does when its child has failed it. */
  function DetachedState(state: ServiceState): ServiceState {
    if state != Stopped then Recovering else state
  }

  /** _begin_respawn */
  function Begun(r: Respawn): Respawn {
    if r == NoThread then Trying(0) else r
  }

  function Dead(c: Child): Child {
    c.(alive := false, joined := true, working := None)
  }

  // ---- steps

  predicate LeaseEnabled(s: Service, a: LeaseStep) {
    match a
    case Acquire(t) => !s.slot && t !in s.admitting
    case Admit(t) => t in s.admitting && s.admitting[t] == Deciding(Ready)
    case Refuse(t) => t in s.admitting && s.admitting[t].Deciding? && s.admitting[t].state != Ready
    case EnterRun(l) => l in s.leases && l !in s.calls && MayRun(s.leases[l])
    case ExitRun(l) => l in s.leases && l in s.calls && s.calls[l].Finished?
    case Release(l) => l in s.leases
    case FreeSlot(l) => l in s.freeing
  }

  predicate CallEnabled(s: Service, l: LeaseId, a: CallStep) {
    l in s.calls &&
    match a
    case Look => s.calls[l] == Entered
    case Send(_) =>
      && s.calls[l].Looked? && s.calls[l].ready && s.calls[l].seen.Some?
      && s.calls[l].seen.value in s.children && s.children[s.calls[l].seen.value].open
    case NotSent => s.calls[l].Looked?
    case Receive =>
      && s.calls[l].Waiting? && s.calls[l].child in s.children
      && s.children[s.calls[l].child].open && s.children[s.calls[l].child].outbox != []
    case GiveUp => s.calls[l].Waiting?
    case Detach => s.calls[l] == Failing
    case Kill => s.calls[l].Killing? && (s.calls[l].victim.Some? ==> s.calls[l].victim.value in s.children)
    case Close => s.calls[l].Closing? && (s.calls[l].victim.Some? ==> s.calls[l].victim.value in s.children)
    case Revive => s.calls[l] == Reviving
  }

  predicate ServiceEnabled(s: Service, a: ServiceStep) {
    match a
    case StartService => !s.started && s.state == Stopped
    case StartLoaded => s.state == Starting && s.starting.Some? && s.starting.value in s.children
    case StartFailed => s.state == Starting && s.starting.Some? && s.starting.value in s.children
    case StopService => s.started && s.state != Starting
    case StopJoined(c) => c in s.stopping && c in s.children && !s.stopping[c]
    case StopClosed(c) => c in s.stopping && c in s.children && s.stopping[c]
    case Examine(t) => t in s.admitting && s.admitting[t] == Checking
  }

  predicate SpawnEnabled(s: Service, a: SpawnStep) {
    match a
    case Spawn => s.respawn.Trying? && s.respawn.attempt < RESPAWN_ATTEMPTS
    case SpawnFailed => s.respawn.Loading? && s.respawn.child in s.children
    case SpawnReady => s.respawn.Loading?
    case Install => s.respawn.Loaded? && s.respawn.child in s.children
    case Surrender => s.respawn.Trying? && s.respawn.attempt >= RESPAWN_ATTEMPTS
  }

  predicate ChildEnabled(s: Service, c: ChildId, a: ChildStep) {
    c in s.children && s.children[c].alive &&
    match a
    case Reads => s.children[c].working.None? && s.children[c].inbox != []
    case Replies => s.children[c].working.Some?
    case Dies => true
  }

  predicate Enabled(s: Service, a: Action) {
    match a
    case OfLease(step) => LeaseEnabled(s, step)
    case OfCall(l, step) => CallEnabled(s, l, step)
    case OfService(step) => ServiceEnabled(s, step)
    case OfSpawn(step) => SpawnEnabled(s, step)
    case OfChild(c, step) => ChildEnabled(s, c, step)
  }

  function WithPhase(s: Service, l: LeaseId, p: Phase): Service {
    s.(calls := s.calls[l := p])
  }

  function WithChild(s: Service, c: ChildId, child: Child): Service {
    s.(children := s.children[c := child])
  }

  function KillVictim(s: Service, c: Option<ChildId>): Service
    requires c.Some? ==> c.value in s.children
  {
    if c.None? then s else WithChild(s, c.value, Dead(s.children[c.value]))
  }

  function CloseVictim(s: Service, c: Option<ChildId>): Service
    requires c.Some? ==> c.value in s.children
  {
    if c.None? then s else WithChild(s, c.value, s.children[c.value].(open := false))
  }

  /** The child could not be used: killed, joined and its pipe closed by the thread that was loading it. */
  function Discarded(s: Service, c: ChildId): Service
    requires c in s.children
  {
    WithChild(s, c, Dead(s.children[c]).(open := false))
  }

  /** The locked part of try_acquire: a child that died while idle is replaced. */
  function Examined(s: Service, t: ThreadId): Service {
    if s.state == Ready && (s.current.None? || s.current.value !in s.children || !s.children[s.current.value].alive) then
      s.(state := Recovering, current := None, respawn := Begun(s.respawn), admitting := s.admitting[t := Deciding(Recovering)])
    else s.(admitting := s.admitting[t := Deciding(s.state)])
  }

  function LeaseEffect(s: Service, a: LeaseStep): Service
    requires LeaseEnabled(s, a)
  {
    match a
    case Acquire(t) => s.(slot := true, admitting := s.admitting[t := Checking])
    case Admit(t) => s.(admitting := s.admitting - {t}, leases := s.leases[s.next := NEW_LEASE], next := s.next + 1)
    case Refuse(t) => s.(admitting := s.admitting - {t}, slot := false)
    case EnterRun(l) => WithPhase(s, l, Entered).(leases := s.leases[l := s.leases[l].(running := true)])
    case ExitRun(l) =>
      var (lease, freeNow) := Exited(s.leases[l]);
      s.(calls := s.calls - {l}, leases := s.leases[l := lease], freeing := if freeNow then s.freeing + {l} else s.freeing)
    case Release(l) =>
      var (lease, freeNow) := ReleasedBy(s.leases[l]);
      s.(leases := s.leases[l := lease], freeing := if freeNow then s.freeing + {l} else s.freeing)
    case FreeSlot(l) => s.(slot := false, freeing := s.freeing - {l}, freed := s.freed + multiset{l})
  }

  function Received(s: Service, l: LeaseId): Service
    requires CallEnabled(s, l, Receive)
  {
    var c, request := s.calls[l].child, s.calls[l].request;
    var reply := s.children[c].outbox[0];
    WithPhase(WithChild(s, c, s.children[c].(outbox := s.children[c].outbox[1..])), l,
              if reply.id == request.id then Finished(Some((request, reply))) else Failing)
  }

  function Sent(s: Service, l: LeaseId, op: nat): Service
    requires CallEnabled(s, l, Send(op))
  {
    var c, request := s.calls[l].seen.value, Request(s.next, op);
    WithPhase(WithChild(s, c, s.children[c].(inbox := s.children[c].inbox + [request])), l, Waiting(c, request))
      .(next := s.next + 1)
  }

  function Detached(s: Service, l: LeaseId): Service {
    WithPhase(s, l, Killing(s.current)).(current := None, state := DetachedState(s.state),
      abandoned := if s.current.Some? then s.abandoned + {s.current.value} else s.abandoned)
  }

  function CallEffect(s: Service, l: LeaseId, a: CallStep): Service
    requires CallEnabled(s, l, a)
  {
    match a
    case Look => WithPhase(s, l, Looked(s.current, s.state == Ready))
    case Send(op) => Sent(s, l, op)
    case NotSent => WithPhase(s, l, Failing)
    case Receive => Received(s, l)
    case GiveUp => WithPhase(s, l, Failing)
    case Detach => Detached(s, l)
    case Kill => WithPhase(KillVictim(s, s.calls[l].victim), l, Closing(s.calls[l].victim))
    case Close => WithPhase(CloseVictim(s, s.calls[l].victim), l, Reviving)
    case Revive =>
      WithPhase(s, l, Finished(None)).(respawn := if s.state == Recovering then Begun(s.respawn) else s.respawn)
  }

  function ServiceEffect(s: Service, a: ServiceStep): Service
    requires ServiceEnabled(s, a)
  {
    match a
    case StartService =>
      WithChild(s, s.next, LOADING).(state := Starting, started := true, starting := Some(s.next), next := s.next + 1)
    case StartLoaded =>
      s.(current := s.starting, state := Ready, starting := None, installed := s.installed + {s.starting.value})
    case StartFailed => Discarded(s, s.starting.value).(state := Failed, starting := None)
    case StopService =>
      s.(state := Stopped, current := None,
         stopping := if s.current.Some? then s.stopping[s.current.value := false] else s.stopping)
    case StopJoined(c) => WithChild(s, c, Dead(s.children[c])).(stopping := s.stopping[c := true])
    case StopClosed(c) => WithChild(s, c, s.children[c].(open := false)).(stopping := s.stopping - {c})
    case Examine(t) => Examined(s, t)
  }

  function Installed(s: Service): Service
    requires SpawnEnabled(s, Install)
  {
    var c := s.respawn.child;
    if s.state == Stopped then Discarded(s, c).(respawn := NoThread)
    else s.(current := Some(c), state := Ready, respawn := NoThread, installed := s.installed + {c})
  }

  function SpawnEffect(s: Service, a: SpawnStep): Service
    requires SpawnEnabled(s, a)
  {
    match a
    case Spawn =>
      if s.state == Stopped then s.(respawn := NoThread)
      else WithChild(s, s.next, LOADING).(respawn := Loading(s.respawn.attempt, s.next), next := s.next + 1)
    case SpawnFailed => Discarded(s, s.respawn.child).(respawn := Trying(s.respawn.attempt + 1))
    case SpawnReady => s.(respawn := Loaded(s.respawn.child))
    case Install => Installed(s)
    case Surrender => s.(respawn := NoThread, state := if s.state != Stopped then Failed else Stopped)
  }

  function ChildAfter(c: Child, a: ChildStep): Child
    requires a.Reads? ==> c.inbox != []
    requires a.Replies? ==> c.working.Some?
  {
    match a
    case Reads => c.(working := Some(c.inbox[0]), inbox := c.inbox[1..])
    case Replies => c.(working := None, outbox := c.outbox + [Reply(c.working.value.id, c.working.value)])
    case Dies => c.(alive := false, working := None)
  }

  function Effect(s: Service, a: Action): Service
    requires Enabled(s, a)
  {
    match a
    case OfLease(step) => LeaseEffect(s, step)
    case OfCall(l, step) => CallEffect(s, l, step)
    case OfService(step) => ServiceEffect(s, step)
    case OfSpawn(step) => SpawnEffect(s, step)
    case OfChild(c, step) => WithChild(s, c, ChildAfter(s.children[c], step))
  }

  function Init(): Service {
    Service(false, Stopped, None, map[], map[], map[], {}, map[], NoThread, None, false, map[], 0, multiset{}, {}, {})
  }

  ghost predicate IsRun(states: seq<Service>, actions: seq<Action>) {
    && |states| == |actions| + 1 && states[0] == Init()
    && (forall i | 0 <= i < |actions| :: Enabled(states[i], actions[i]) && states[i + 1] == Effect(states[i], actions[i]))
  }
}
