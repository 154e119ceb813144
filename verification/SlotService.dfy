/** The objects of slot.py and the loop of worker.py, section by section.
  *
  * Each method is what one thread does while it holds a lock, and moves the object as the step of the
  * same name in `Slot` does; the loops of _respawn_loop and serve are given in full.
  */
module SlotService {
  import opened Wrappers
  import opened Slot

  class LeaseObject {
    var running: bool
    var releaseRequested: bool
    var released: bool

    function View(): Lease
      reads this
    {
      Lease(running, releaseRequested, released)
    }

    constructor ()
      ensures View() == NEW_LEASE
    {
      running, releaseRequested, released := false, false, false;
    }

    /** The locked head of run(); false is the RuntimeError. */
    method EnterRun() returns (ok: bool)
      modifies this
      ensures ok <==> !old(released) && !old(releaseRequested) && !old(running)
      ensures ok == MayRun(old(View()))
      ensures View() == if ok then old(View()).(running := true) else old(View())
    {
      if released || releaseRequested { return false; }
      if running { return false; }
      running := true;
      ok := true;
    }

    /** The locked part of run()'s finally block. */
    method ExitRun() returns (freeNow: bool)
      modifies this
      ensures freeNow <==> old(releaseRequested) && !old(released)
      ensures !running && releaseRequested == old(releaseRequested) && released == (old(released) || old(releaseRequested))
      ensures (View(), freeNow) == Exited(old(View()))
    {
      running := false;
      freeNow := releaseRequested && !released;
      if freeNow { released := true; }
    }

    /** The locked part of release(). */
    method Release() returns (freeNow: bool)
      modifies this
      ensures freeNow <==> !old(released) && !old(running)
      ensures running == old(running) && released == (old(released) || !old(running))
      ensures releaseRequested == (old(releaseRequested) || (old(running) && !old(released)))
      ensures (View(), freeNow) == ReleasedBy(old(View()))
    {
      if released { return false; }
      if running {
        releaseRequested := true;
        return false;
      }
      released := true;
      freeNow := true;
    }
  }

  /** What the service's lock guards. */
  datatype Guarded = Guarded(state: ServiceState, current: Option<ChildId>, respawn: Respawn)

  function GuardedBy(s: Service): Guarded {
    Guarded(s.state, s.current, s.respawn)
  }

  class ProcessingService {
    var state: ServiceState
    var current: Option<ChildId>
    var respawn: Respawn

    function View(): Guarded
      reads this
    {
      Guarded(state, current, respawn)
    }

    constructor ()
      ensures View() == GuardedBy(Init())
    {
      state, current, respawn := Stopped, None, NoThread;
    }

    /** _begin_respawn: at most one thread loads a replacement. */
    method BeginRespawn()
      modifies this`respawn
      ensures respawn == if old(respawn) == NoThread then Trying(0) else old(respawn)
      ensures View() == old(View()).(respawn := Begun(old(respawn)))
    {
      if respawn != NoThread { return; }
      respawn := Trying(0);
    }

    /** The locked part of try_acquire, given whether the current child is alive. */
    method Examine(s: Service, t: ThreadId) returns (seen: ServiceState)
      requires ServiceEnabled(s, Slot.ServiceStep.Examine(t)) && View() == GuardedBy(s)
      modifies this
      ensures var dead := old(state) == Ready
                          && (old(current).None? || old(current).value !in s.children || !s.children[old(current).value].alive);
              View() == if dead then Guarded(Recovering, None, if old(respawn) == NoThread then Trying(0) else old(respawn))
                        else old(View())
      ensures seen == state
      ensures View() == GuardedBy(Examined(s, t)) && Examined(s, t).admitting[t] == Deciding(seen)
    {
      seen := state;
      if state == Ready && (current.None? || current.value !in s.children || !s.children[current.value].alive) {
        state := Recovering;
        seen := state;
        current := None;
        BeginRespawn();
      }
    }

    /** The first locked part of _terminate_and_recover. */
    method Detach(s: Service, l: LeaseId) returns (victim: Option<ChildId>)
      requires CallEnabled(s, l, Slot.CallStep.Detach) && View() == GuardedBy(s)
      modifies this
      ensures victim == old(current) && View() == Guarded(if old(state) == Stopped then Stopped else Recovering, None, old(respawn))
      ensures View() == GuardedBy(Detached(s, l)) && Detached(s, l).calls[l] == Killing(victim)
    {
      victim := current;
      current := None;
      if state != Stopped { state := Recovering; }
    }

    /** Its last part: a replacement is started unless the service was stopped meanwhile. */
    method Revive(s: Service, l: LeaseId)
      requires CallEnabled(s, l, Slot.CallStep.Revive) && View() == GuardedBy(s)
      modifies this
      ensures View() == Guarded(old(state), old(current), if old(state) == Recovering && old(respawn) == NoThread then Trying(0)
                                                          else old(respawn))
      ensures View() == GuardedBy(CallEffect(s, l, Slot.CallStep.Revive))
    {
      var still := state == Recovering;
      if still { BeginRespawn(); }
    }

    /** The locked part of stop(). */
    method Stop(s: Service) returns (victim: Option<ChildId>)
      requires ServiceEnabled(s, StopService) && View() == GuardedBy(s)
      modifies this
      ensures victim == old(current) && View() == Guarded(Stopped, None, old(respawn))
      ensures View() == GuardedBy(ServiceEffect(s, StopService)) && victim == s.current
    {
      victim := current;
      current := None;
      state := Stopped;
    }

    /** _respawn_loop when nobody interferes: the first child that loads is installed; after three failures the
      * service has failed; a stopped service is left alone. */
    method RespawnLoop(loads: seq<Option<ChildId>>) returns (tried: nat)
      requires |loads| == RESPAWN_ATTEMPTS && respawn == Trying(0)
      modifies this
      ensures respawn == NoThread
      ensures old(state) == Stopped ==> tried == 0 && state == Stopped && current == old(current)
      ensures old(state) != Stopped ==>
                && tried <= 3 && (forall i | 0 <= i < tried - 1 :: loads[i].None?)
                && (if exists i | 0 <= i < 3 :: loads[i].Some?
                    then state == Ready && tried > 0 && loads[tried - 1].Some? && current == loads[tried - 1]
                    else state == Failed && current == old(current) && tried == 3)
    {
      tried := 0;
      while tried < RESPAWN_ATTEMPTS
        invariant tried <= RESPAWN_ATTEMPTS && respawn == Trying(tried) && state == old(state) && current == old(current)
        invariant forall i | 0 <= i < tried :: loads[i].None?
        invariant state == Stopped ==> tried == 0
      {
        if state == Stopped {
          respawn := NoThread;
          return;
        }
        var child := loads[tried];
        tried := tried + 1;
        if child.None? {
          respawn := Trying(tried);
          continue;
        }
        current, state, respawn := child, Ready, NoThread;
        return;
      }
      if state != Stopped { state := Failed; }
      respawn := NoThread;
    }
  }

  /** A message on the pipe to the child: a request, or the None that ends it. */
  type Message = Option<Request>

  /** The replies the child owes: one for each request, in order, up to the message that ends it. */
  function Owed(messages: seq<Message>): seq<Reply> {
    if messages == [] || messages[0].None? then []
    else [Reply(messages[0].value.id, messages[0].value)] + Owed(messages[1..])
  }

  /** Those replies that can be sent before the parent closes its end, if it ever does. */
  function Sendable(replies: seq<Reply>, room: Option<nat>): seq<Reply> {
    if room.Some? && room.value < |replies| then replies[..room.value] else replies
  }

  /** The child's end of the pipe; the parent takes `room` more replies and then closes its end, or never does. */
  class Pipe {
    var inbox: seq<Message>
    var outbox: seq<Reply>
    var room: Option<nat>

    constructor (messages: seq<Message>, room: Option<nat>)
      ensures inbox == messages && outbox == [] && this.room == room
    {
      inbox, outbox, this.room := messages, [], room;
    }

    /** Some(None) is the end of the file: the parent is gone. */
    method Receive() returns (m: Option<Message>)
      modifies this`inbox
      ensures old(inbox) == [] ==> m == None && inbox == []
      ensures old(inbox) != [] ==> m == Some(old(inbox)[0]) && inbox == old(inbox)[1..]
    {
      if inbox == [] { return None; }
      m := Some(inbox[0]);
      inbox := inbox[1..];
    }

    /** False is the broken pipe. */
    method Send(r: Reply) returns (sent: bool)
      modifies this`outbox, this`room
      ensures sent <==> old(room) != Some(0)
      ensures outbox == if sent then old(outbox) + [r] else old(outbox)
      ensures room == if old(room).Some? && sent then Some(old(room).value - 1) else old(room)
    {
      if room == Some(0) { return false; }
      if room.Some? { room := Some(room.value - 1); }
      outbox := outbox + [r];
      sent := true;
    }

    /** serve(): exactly one reply for each request, in order, under the request's own id, until the parent is gone. */
    method Serve()
      modifies this
      ensures outbox == old(outbox) + Sendable(Owed(old(inbox)), old(room))
    {
      ghost var owed := Owed(inbox);
      hide Owed, Sendable;
      while true
        invariant outbox + Sendable(Owed(inbox), room) == old(outbox) + Sendable(owed, old(room))
        decreases |inbox|
      {
        ghost var before, left, done := inbox, room, outbox;
        NextOwed(before, left);
        var m := Receive();
        if m.None? || m.value.None? {
          assert outbox == outbox + Sendable(Owed(before), left);
          return;
        }
        var request := m.value.value;
        var sent := Send(Reply(request.id, request));
        if !sent {
          assert outbox == outbox + Sendable(Owed(before), left);
          return;
        }
        assert outbox + Sendable(Owed(inbox), room) == done + Sendable(Owed(before), left);
      }
    }
  }

  /** What one turn of the loop takes off what is owed. */
  lemma NextOwed(messages: seq<Message>, room: Option<nat>)
    ensures messages == [] || messages[0].None? || room == Some(0) ==> Sendable(Owed(messages), room) == []
    ensures messages != [] && messages[0].Some? && room != Some(0) ==>
              Sendable(Owed(messages), room)
                == [Reply(messages[0].value.id, messages[0].value)]
                   + Sendable(Owed(messages[1..]), if room.Some? then Some(room.value - 1) else None)
  {
  }

  /** Nothing is left unanswered and nothing is answered twice. */
  lemma {:induction false} OwedInOrder(messages: seq<Message>)
    ensures |Owed(messages)| <= |messages|
    ensures forall i | 0 <= i < |Owed(messages)| ::
              messages[i].Some? && Owed(messages)[i] == Reply(messages[i].value.id, messages[i].value)
    ensures |Owed(messages)| < |messages| ==> messages[|Owed(messages)|].None?
  {
    if messages != [] && messages[0].Some? {
      OwedInOrder(messages[1..]);
    }
  }
}
