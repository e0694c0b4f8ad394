/**
  The worker: the event loop over all rooms, with its tables as fields.  Each handler is shown to
  do to its own room what the scheduler's cell step says, and to leave every other room alone.
*/
module Workers {
  import opened Basics
  import opened Scheduler

  class Worker {
    /** Futures, proxies and executions are unordered collections in the source, grouped by room here. */
    var coordination: map<Room, Futures>
    var proxies: map<Room, multiset<Receiver>>
    var executions: multiset<Room>
    var rpc: map<Room, nat>
    var busy: set<Room>
    var restores: map<Room, Restore>
    var pending: map<Room, seq<Request>>
    var serials: map<Room, nat>
    ghost var arrived: map<Room, seq<Request>>
    ghost var dispatched: map<Room, seq<Request>>
    ghost var refused: map<Room, seq<Request>>
    ghost var resolved: map<Room, seq<Resolved>>

    /** A room's queue holds requests for that room. */
    ghost predicate Valid()
      reads this
    {
      forall r, i :: r in pending && 0 <= i < |pending[r]| ==> pending[r][i].room == r
    }

    ghost function CellOf(r: Room): Cell
      reads this
    {
      Cell(At(coordination, r, map[]),
           if r in rpc then Some(rpc[r]) else None,
           r in busy,
           if r in restores then Some(restores[r]) else None,
           if r in pending then Some(pending[r]) else None,
           At(proxies, r, multiset{}), executions[r], At(serials, r, 0),
           At(arrived, r, []), At(dispatched, r, []), At(refused, r, []), At(resolved, r, []))
    }

    twostate predicate OnlyRoom(room: Room)
      reads this
    {
      forall q :: q != room ==> CellOf(q) == old(CellOf(q))
    }

    /** Every configured room gets a Phase-1 future on its network receiver. */
    constructor (rooms: seq<Room>)
      requires forall i, j :: 0 <= i < j < |rooms| ==> rooms[i] != rooms[j]
      ensures Valid() && forall r :: r in rooms ==> CellOf(r) == NewRoom(r)
    {
      coordination, proxies, executions, rpc, busy := map[], map[], multiset{}, map[], {};
      restores, pending, serials := map[], map[], map[];
      arrived, dispatched, refused, resolved := map[], map[], map[], map[];
      new;
      for i := 0 to |rooms|
        invariant Valid() && pending == map[]
        invariant forall r :: r in rooms[..i] ==> CellOf(r) == NewRoom(r)
        invariant forall r :: r !in rooms[..i] ==>
                                CellOf(r) == Cell(map[], None, false, None, None, multiset{}, 0, 0, [], [], [], [])
      {
        NewPhase1(rooms[i], Network(rooms[i]));
      }
    }

    method NextSerial(room: Room) returns (serial: nat)
      requires Valid()
      modifies this`serials
      ensures Valid() && OnlyRoom(room)
      ensures serial == old(CellOf(room)).next && CellOf(room) == old(CellOf(room)).(next := serial + 1)
    {
      serial := At(serials, room, 0);
      serials := serials[room := serial + 1];
    }

    method AddFuture(room: Room, serial: nat, receiver: Receiver)
      requires Valid()
      modifies this`coordination
      ensures Valid() && OnlyRoom(room)
      ensures var c := old(CellOf(room));
              CellOf(room) == c.(futures := c.futures[serial := Phase1(receiver, None)])
    {
      coordination := coordination[room := At(coordination, room, map[])[serial := Phase1(receiver, None)]];
    }

    method KeepSender(room: Room, serial: nat)
      requires Valid()
      modifies this`rpc
      ensures Valid() && OnlyRoom(room) && CellOf(room) == old(CellOf(room)).(rpc := Some(serial))
    {
      rpc := rpc[room := serial];
    }

    /** Adds a Phase-1 future with a new channel, and keeps its sender. */
    method NewPhase1(room: Room, receiver: Receiver)
      requires Valid()
      modifies this`coordination, this`rpc, this`serials
      ensures Valid() && OnlyRoom(room) && CellOf(room) == Renew(old(CellOf(room)), receiver)
    {
      hide CellOf, Valid;
      var serial := NextSerial(room);
      AddFuture(room, serial, receiver);
      KeepSender(room, serial);
    }

    /** Takes the sender of a room's channel out of the table; a room without one gets a virtual future. */
    method TakeSender(room: Room) returns (serial: nat)
      requires Valid()
      modifies this`coordination, this`rpc, this`serials
      ensures Valid() && OnlyRoom(room)
      ensures var c := old(CellOf(room));
              var c1 := if c.rpc.Some? then c else Renew(c, Virtual);
              serial == c1.rpc.value && CellOf(room) == c1.(rpc := None)
    {
      if room !in rpc {
        NewPhase1(room, Virtual);
      }
      serial := rpc[room];
      rpc := rpc - {room};
    }

    /** Hands a request to a future, if that is still there. */
    method Send(m: Request, serial: nat) returns (sent: bool)
      requires Valid()
      modifies this`coordination
      ensures Valid() && OnlyRoom(m.room)
      ensures var c := old(CellOf(m.room));
              && sent == (serial in c.futures)
              && CellOf(m.room) ==
                 if sent then c.(futures := c.futures[serial := c.futures[serial].(request := Some(m))]) else c
    {
      var futures := At(coordination, m.room, map[]);
      sent := serial in futures;
      if sent {
        coordination := coordination[m.room := futures[serial := futures[serial].(request := Some(m))]];
      }
    }

    method NoteDispatched(m: Request)
      requires Valid()
      modifies this`dispatched
      ensures Valid() && OnlyRoom(m.room)
      ensures CellOf(m.room) == old(CellOf(m.room)).(dispatched := old(CellOf(m.room)).dispatched + [m])
    {
      dispatched := dispatched[m.room := At(dispatched, m.room, []) + [m]];
    }

    method NoteRefused(m: Request)
      requires Valid()
      modifies this`refused
      ensures Valid() && OnlyRoom(m.room)
      ensures CellOf(m.room) == old(CellOf(m.room)).(refused := old(CellOf(m.room)).refused + [m])
    {
      refused := refused[m.room := At(refused, m.room, []) + [m]];
    }

    /** Sends the request to the room's future, if the other end of the channel is still there. */
    method DispatchToRoom(m: Request) returns (sent: bool)
      requires Valid()
      modifies this`coordination, this`rpc, this`serials, this`dispatched, this`refused
      ensures Valid() && OnlyRoom(m.room) && (CellOf(m.room), sent) == Dispatch(old(CellOf(m.room)), m)
    {
      hide CellOf, Valid;
      var serial := TakeSender(m.room);
      sent := Send(m, serial);
      if sent {
        NoteDispatched(m);
      } else {
        NoteRefused(m);
      }
    }

    method SetBusy(room: Room, to: bool)
      requires Valid()
      modifies this`busy
      ensures Valid() && OnlyRoom(room) && CellOf(room) == old(CellOf(room)).(busy := to)
    {
      busy := if to then busy + {room} else busy - {room};
    }

    method DispatchLocal(m: Request)
      requires Valid()
      modifies this`coordination, this`rpc, this`serials, this`dispatched, this`refused, this`busy
      ensures Valid() && OnlyRoom(m.room) && CellOf(m.room) == DispatchAndMark(old(CellOf(m.room)), m)
    {
      hide CellOf, Valid, Dispatch;
      var sent := DispatchToRoom(m);
      if sent {
        SetBusy(m.room, true);
      }
    }

    /** Replaces a room's queue. */
    method SetQueue(room: Room, queue: seq<Request>)
      requires Valid() && forall i :: 0 <= i < |queue| ==> queue[i].room == room
      modifies this`pending
      ensures Valid() && OnlyRoom(room)
      ensures CellOf(room) == old(CellOf(room)).(queue := if queue == [] then None else Some(queue))
    {
      pending := if queue == [] then pending - {room} else pending[room := queue];
    }

    method DispatchPendingLocal(room: Room)
      requires Valid()
      modifies this
      ensures Valid() && OnlyRoom(room) && CellOf(room) == DispatchPending(old(CellOf(room)))
    {
      if room in busy || room !in pending {
        return;
      }
      var queue := pending[room];
      assert !CellOf(room).busy && CellOf(room).queue == Some(queue);
      if queue == [] {
        SetQueue(room, []);
        return;
      }
      hide CellOf, Valid, DispatchAndMark;
      SetQueue(room, queue[1..]);
      DispatchLocal(queue[0]);
    }

    method NoteArrival(m: Request)
      requires Valid()
      modifies this`arrived
      ensures Valid() && OnlyRoom(m.room)
      ensures CellOf(m.room) == old(CellOf(m.room)).(arrived := old(CellOf(m.room)).arrived + [m])
    {
      arrived := arrived[m.room := At(arrived, m.room, []) + [m]];
    }

    method OnLocal(m: Request)
      requires Valid()
      modifies this
      ensures Valid() && OnlyRoom(m.room) && CellOf(m.room) == TakeLocal(old(CellOf(m.room)), m)
    {
      var isBusy, queue := m.room in busy, At(pending, m.room, []);
      assert CellOf(m.room).busy == isBusy && CellOf(m.room).Waiting() == queue;
      assert forall i :: 0 <= i < |queue| ==> queue[i].room == m.room;
      hide CellOf, Valid, DispatchAndMark;
      NoteArrival(m);
      if isBusy {
        SetQueue(m.room, queue + [m]);
      } else {
        DispatchLocal(m);
      }
    }

    /** Takes a resolved future out. */
    method RemoveFuture(room: Room, serial: nat) returns (future: Phase1)
      requires Valid() && serial in CellOf(room).futures
      modifies this`coordination
      ensures Valid() && OnlyRoom(room)
      ensures var c := old(CellOf(room));
              future == c.futures[serial] && CellOf(room) == c.(futures := c.futures - {serial})
    {
      future := coordination[room][serial];
      coordination := coordination[room := coordination[room] - {serial}];
    }

    method NoteResolved(room: Room, outcome: seq<Resolved>)
      requires Valid()
      modifies this`resolved
      ensures Valid() && OnlyRoom(room)
      ensures CellOf(room) == old(CellOf(room)).(resolved := old(CellOf(room)).resolved + outcome)
    {
      resolved := resolved[room := At(resolved, room, []) + outcome];
    }

    method AddProxy(room: Room, receiver: Receiver)
      requires Valid()
      modifies this`proxies
      ensures Valid() && OnlyRoom(room)
      ensures CellOf(room) == old(CellOf(room)).(proxies := old(CellOf(room)).proxies + multiset{receiver})
    {
      proxies := proxies[room := At(proxies, room, multiset{}) + multiset{receiver}];
    }

    method AddExecution(room: Room)
      requires Valid()
      modifies this`executions
      ensures Valid() && OnlyRoom(room)
      ensures CellOf(room) == old(CellOf(room)).(executions := old(CellOf(room)).executions + 1)
    {
      executions := executions + multiset{room};
    }

    /** A Phase-1 future resolves into a session that starts, or is aborted. */
    method OnSession(room: Room, serial: nat, fromLocal: bool, started: bool)
      requires Valid() && serial in CellOf(room).futures
      modifies this
      ensures Valid() && OnlyRoom(room)
      ensures CellOf(room) == BeginSession(old(CellOf(room)), serial, fromLocal, started)
    {
      hide CellOf, Valid, DispatchPending, Renew;
      var future := RemoveFuture(room, serial);
      var receiver := future.receiver;
      NoteResolved(room, Resolve(future, fromLocal));
      if started {
        SetBusy(room, true);
        AddProxy(room, receiver);
        AddExecution(room);
      } else {
        SetBusy(room, false);
        NewPhase1(room, receiver);
        DispatchPendingLocal(room);
      }
    }

    method RemoveExecution(room: Room)
      requires Valid() && room in executions
      modifies this`executions
      ensures Valid() && OnlyRoom(room)
      ensures old(CellOf(room)).executions > 0
      ensures CellOf(room) == old(CellOf(room)).(executions := old(CellOf(room)).executions - 1)
    {
      executions := executions - multiset{room};
    }

    method TakeRestore(room: Room) returns (restore: Restore)
      requires Valid() && room in restores
      modifies this`restores
      ensures Valid() && OnlyRoom(room) && old(CellOf(room)).restore == Some(restore)
      ensures CellOf(room) == old(CellOf(room)).(restore := None)
    {
      restore := restores[room];
      restores := restores - {room};
    }

    /** Puts a parked future back to work. */
    method Unpark(room: Room)
      requires Valid() && room in restores
      modifies this`restores, this`coordination, this`rpc
      ensures Valid() && OnlyRoom(room) && old(CellOf(room)).restore.Some?
      ensures var c := old(CellOf(room));
              CellOf(room) == Install(c.(restore := None), c.restore.value.serial, c.restore.value.receiver)
    {
      hide CellOf, Valid;
      var restore := TakeRestore(room);
      AddFuture(room, restore.serial, restore.receiver);
      KeepSender(room, restore.serial);
    }

    /** Removes a finished execution, and frees the room. */
    method Free(room: Room)
      requires Valid() && room in executions
      modifies this`executions, this`busy
      ensures Valid() && OnlyRoom(room) && old(CellOf(room)).executions > 0
      ensures CellOf(room) == old(CellOf(room)).(executions := old(CellOf(room)).executions - 1, busy := false)
    {
      hide CellOf, Valid;
      RemoveExecution(room);
      SetBusy(room, false);
    }

    method OnExecutionEnd(room: Room)
      requires Valid() && room in executions
      modifies this
      ensures Valid() && OnlyRoom(room) && old(CellOf(room)).executions > 0
      ensures CellOf(room) == EndExecution(old(CellOf(room)))
    {
      assert CellOf(room).restore.Some? == (room in restores);
      hide CellOf, Valid, DispatchPending, Install;
      Free(room);
      if room in restores {
        Unpark(room);
        DispatchPendingLocal(room);
      }
    }

    /** Takes an ended proxy out. */
    method RemoveProxy(room: Room, receiver: Receiver)
      requires Valid() && receiver in CellOf(room).proxies
      modifies this`proxies
      ensures Valid() && OnlyRoom(room)
      ensures CellOf(room) == old(CellOf(room)).(proxies := old(CellOf(room)).proxies - multiset{receiver})
    {
      proxies := proxies[room := proxies[room] - multiset{receiver}];
    }

    /** Parks a new Phase-1 future around the receiver of an ended proxy. */
    method Park(room: Room, receiver: Receiver)
      requires Valid()
      modifies this`serials, this`restores
      ensures Valid() && OnlyRoom(room)
      ensures var c := old(CellOf(room));
              CellOf(room) == c.(restore := Some(Restore(c.next, receiver)), next := c.next + 1)
    {
      var serial := At(serials, room, 0);
      serials := serials[room := serial + 1];
      restores := restores[room := Restore(serial, receiver)];
    }

    method OnProxyEnd(room: Room, receiver: Receiver)
      requires Valid() && receiver in CellOf(room).proxies
      modifies this
      ensures Valid() && OnlyRoom(room) && CellOf(room) == EndProxy(old(CellOf(room)), receiver)
    {
      assert CellOf(room).busy == (room in busy);
      hide CellOf, Valid, DispatchPending, Renew;
      RemoveProxy(room, receiver);
      if room in busy {
        Park(room, receiver);
      } else {
        NewPhase1(room, receiver);
        DispatchPendingLocal(room);
      }
    }

    /** One turn of the loop. */
    method Handle(e: Event)
      requires Valid() && Enabled(CellOf(RoomOf(e)), e)
      modifies this
      ensures Valid() && OnlyRoom(RoomOf(e)) && CellOf(RoomOf(e)) == CellStep(old(CellOf(RoomOf(e))), e)
    {
      assert CellOf(RoomOf(e)).executions == executions[RoomOf(e)];
      hide CellOf, Valid, BeginSession, TakeLocal, EndExecution, EndProxy;
      match e
      case Local(m) => OnLocal(m);
      case Session(room, serial, fromLocal, started) => OnSession(room, serial, fromLocal, started);
      case ExecutionEnds(room) => OnExecutionEnd(room);
      case ProxyEnds(room, receiver) => OnProxyEnd(room, receiver);
    }

    /** The whole loop brings the tables to the state of the run. */
    method Run(rooms: seq<Room>, events: seq<Event>)
      requires Valid() && Exec((set r | r in rooms), events).Some?
      requires forall r :: r in rooms ==> CellOf(r) == NewRoom(r)
      modifies this
      ensures Valid() && forall r :: r in Exec((set r | r in rooms), events).value ==>
                                       CellOf(r) == Exec((set r | r in rooms), events).value[r]
    {
      hide CellOf, Valid, CellStep, Enabled, Calm, Exec, NewRoom;
      ghost var all := set r | r in rooms;
      NoEvents(all);
      assert events[..0] == [] && events[..|events|] == events;
      for i := 0 to |events|
        invariant Valid() && Exec(all, events[..i]).Some?
        invariant forall r :: r in Exec(all, events[..i]).value ==> CellOf(r) == Exec(all, events[..i]).value[r]
      {
        Prefix(all, events, i + 1);
        assert events[..i + 1][..i] == events[..i];
        LastStep(all, events[..i + 1]);
        Handle(events[i]);
      }
    }
  }

  lemma {:induction false} Prefix(rooms: set<Room>, events: seq<Event>, i: nat)
    requires Exec(rooms, events).Some? && i <= |events|
    ensures Exec(rooms, events[..i]).Some?
  {
    hide CellStep, Enabled, Calm;
    if i < |events| {
      Prefix(rooms, events[..|events| - 1], i);
      assert events[..|events| - 1][..i] == events[..i];
    } else {
      assert events[..i] == events;
    }
  }

  lemma LastStep(rooms: set<Room>, events: seq<Event>)
    requires events != [] && Exec(rooms, events).Some?
    ensures var before, e := Exec(rooms, events[..|events| - 1]), events[|events| - 1];
            && before.Some? && RoomOf(e) in before.value && Enabled(before.value[RoomOf(e)], e)
            && Exec(rooms, events).value == before.value[RoomOf(e) := CellStep(before.value[RoomOf(e)], e)]
  {
    hide CellStep, Enabled, Calm;
  }

  function At<T>(m: map<Room, T>, r: Room, default: T): T {
    if r in m then m[r] else default
  }
}
