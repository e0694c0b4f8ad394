/**
  The room scheduler: what the worker's event loop does to one room, and to all of them.

  A room's network receiver wanders between a Phase-1 future that waits for a session, a proxy
  that feeds a running execution, and a restored Phase-1 future that is parked until the
  execution has ended.  Local requests for a busy room are queued.
*/
module Scheduler {
  import opened Basics

  type Room = nat

  /** A local request; the tag tells requests apart. */
  datatype Request =
    | KeyGen(room: Room, tag: nat)
    | KeySign(room: Room, tag: nat)

  /** The receiving end of a room's network messages, or one that nothing is ever sent to. */
  datatype Receiver = Network(room: Room) | Virtual

  /**
    A Phase-1 future: the receiver it owns and the request that was sent to it, if any.  Each
    comes with a one-shot channel for that request; future and channel share a serial number.
  */
  datatype Phase1 = Phase1(receiver: Receiver, request: Option<Request>)

  type Futures = map<nat, Phase1>

  /** A Phase-1 future made when a proxy ended, kept until the room's execution ends. */
  datatype Restore = Restore(serial: nat, receiver: Receiver)

  /** What became of a dispatched request: it began a session, or a peer's invitation came first and it was dropped. */
  datatype Resolved = Resolved(request: Request, begun: bool)

  /** All that the loop's tables hold about one room. */
  datatype Cell = Cell(
    futures: Futures,
    rpc: Option<nat>, // the channel for the next local request
    busy: bool,
    restore: Option<Restore>,
    queue: Option<seq<Request>>,
    proxies: multiset<Receiver>,
    executions: nat,
    next: nat, // serial of the next future
    arrived: seq<Request>, // history
    dispatched: seq<Request>, // history
    refused: seq<Request>, // history
    resolved: seq<Resolved>) // history
  {
    function Waiting(): seq<Request> {
      if queue.Some? then queue.value else []
    }
  }

  // ---- Steps ----

  /** Adds a Phase-1 future that owns the receiver, and makes its channel the room's. */
  function Install(c: Cell, serial: nat, receiver: Receiver): Cell {
    c.(futures := c.futures[serial := Phase1(receiver, None)], rpc := Some(serial))
  }

  /** A new Phase-1 future, with a new channel, around a receiver that was handed back. */
  function Renew(c: Cell, receiver: Receiver): Cell {
    Install(c, c.next, receiver).(next := c.next + 1)
  }

  /**
    Sends a request to the room's Phase-1 future, and says whether it could be sent; a room without
    a channel gets a virtual future first.
  */
  function Dispatch(c: Cell, m: Request): (Cell, bool) {
    var c1 := if c.rpc.Some? then c else Renew(c, Virtual);
    var serial := c1.rpc.value;
    if serial !in c1.futures then (c1.(rpc := None, refused := c1.refused + [m]), false)
    else
      (c1.(rpc := None, futures := c1.futures[serial := c1.futures[serial].(request := Some(m))],
           dispatched := c1.dispatched + [m]), true)
  }

  function DispatchAndMark(c: Cell, m: Request): Cell {
    var (c', sent) := Dispatch(c, m);
    if sent then c'.(busy := true) else c'
  }

  /** Starts the oldest queued request of a room that has become free. */
  function DispatchPending(c: Cell): Cell {
    if c.busy || c.queue == None then c
    else if c.queue.value == [] then c.(queue := None)
    else
      var rest := c.queue.value[1..];
      DispatchAndMark(c.(queue := if rest == [] then None else Some(rest)), c.queue.value[0])
  }

  /** What the loop selects.  A session that a Phase-1 future begins either starts or is aborted. */
  datatype Event =
    | Local(request: Request)
    | Session(room: Room, serial: nat, fromLocal: bool, started: bool)
    | ExecutionEnds(room: Room)
    | ProxyEnds(room: Room, receiver: Receiver)

  function RoomOf(e: Event): Room {
    if e.Local? then e.request.room else e.room
  }

  predicate Enabled(c: Cell, e: Event) {
    match e
    case Local(m) => true
    case Session(_, serial, fromLocal, _) => serial in c.futures && (fromLocal ==> c.futures[serial].request.Some?)
    case ExecutionEnds(_) => c.executions > 0
    case ProxyEnds(_, receiver) => receiver in c.proxies
  }

  function TakeLocal(c: Cell, m: Request): Cell {
    var c1 := c.(arrived := c.arrived + [m]);
    if c.busy then c1.(queue := Some(c.Waiting() + [m])) else DispatchAndMark(c1, m)
  }

  /** A Phase-1 future polls the network before it looks for a request, so an invitation drops the request. */
  function Resolve(future: Phase1, fromLocal: bool): seq<Resolved> {
    if future.request.Some? then [Resolved(future.request.value, fromLocal)] else []
  }

  function BeginSession(c: Cell, serial: nat, fromLocal: bool, started: bool): Cell
    requires serial in c.futures
  {
    var receiver := c.futures[serial].receiver;
    var c1 := c.(futures := c.futures - {serial}, resolved := c.resolved + Resolve(c.futures[serial], fromLocal));
    if started then
      c1.(busy := true, proxies := c1.proxies + multiset{receiver}, executions := c1.executions + 1)
    else
      DispatchPending(Renew(c1.(busy := false), receiver))
  }

  function EndExecution(c: Cell): Cell
    requires c.executions > 0
  {
    var c1 := c.(executions := c.executions - 1, busy := false);
    match c.restore
    case None => c1
    case Some(restore) => DispatchPending(Install(c1.(restore := None), restore.serial, restore.receiver))
  }

  function EndProxy(c: Cell, receiver: Receiver): Cell {
    var c1 := c.(proxies := c.proxies - multiset{receiver});
    if c.busy then c1.(restore := Some(Restore(c1.next, receiver)), next := c1.next + 1)
    else DispatchPending(Renew(c1, receiver))
  }

  function CellStep(c: Cell, e: Event): Cell
    requires Enabled(c, e)
  {
    match e
    case Local(m) => TakeLocal(c, m)
    case Session(_, serial, fromLocal, started) => BeginSession(c, serial, fromLocal, started)
    case ExecutionEnds(_) => EndExecution(c)
    case ProxyEnds(_, receiver) => EndProxy(c, receiver)
  }

  // ---- The invariant of one room ----

  /** The room's one Phase-1 future waits for a session, and its channel is at hand. */
  ghost predicate Ready(c: Cell, r: Room) {
    && !c.busy && c.executions == 0 && c.proxies == multiset{} && c.restore == None
    && c.rpc.Some? && c.futures == map[c.rpc.value := Phase1(Network(r), None)]
  }

  ghost predicate Idle(c: Cell, r: Room) {
    Ready(c, r) && c.queue == None
  }

  /** A request has been sent to the room's one Phase-1 future. */
  ghost predicate Dispatched(c: Cell, r: Room) {
    && c.busy && c.executions == 0 && c.proxies == multiset{} && c.restore == None && c.rpc == None
    && exists serial, m :: serial in c.futures && c.futures == map[serial := Phase1(Network(r), Some(m))]
  }

  /** An execution runs, fed by the room's one proxy. */
  ghost predicate Running(c: Cell, r: Room) {
    c.busy && c.executions == 1 && c.proxies == multiset{Network(r)} && c.restore == None && c.futures == map[]
  }

  /** The proxy has ended before the execution; its successor is parked. */
  ghost predicate Parked(c: Cell, r: Room) {
    && c.busy && c.executions == 1 && c.proxies == multiset{} && c.futures == map[]
    && c.restore.Some? && c.restore.value.receiver == Network(r)
  }

  /** The execution has ended before the proxy: the room is not busy, but has no Phase-1 future. */
  ghost predicate Draining(c: Cell, r: Room) {
    !c.busy && c.executions == 0 && c.proxies == multiset{Network(r)} && c.restore == None && c.futures == map[]
  }

  /** Requests are dispatched in arrival order, each once; the rest are still queued. */
  ghost predicate Fifo(c: Cell) {
    && c.arrived == c.dispatched + c.Waiting() && c.refused == []
    && (c.queue.Some? ==> c.queue.value != [])
  }

  ghost predicate RoomOk(c: Cell, r: Room) {
    Idle(c, r) || Dispatched(c, r) || Running(c, r) || Parked(c, r) || Draining(c, r)
  }

  /** A request given to a room that is ready makes it busy, and counts as dispatched. */
  lemma DispatchReady(c: Cell, r: Room, m: Request)
    requires Ready(c, r)
    ensures DispatchAndMark(c, m)
         == c.(futures := map[c.rpc.value := Phase1(Network(r), Some(m))], rpc := None, busy := true,
               dispatched := c.dispatched + [m])
    ensures Dispatched(DispatchAndMark(c, m), r)
  {
    var c' := c.(futures := map[c.rpc.value := Phase1(Network(r), Some(m))], rpc := None, busy := true,
                 dispatched := c.dispatched + [m]);
    assert c.rpc.value in c'.futures;
  }

  /** The oldest queued request goes to a room that has become ready. */
  lemma DispatchPendingReady(c: Cell, r: Room)
    requires Ready(c, r) && Fifo(c)
    ensures RoomOk(DispatchPending(c), r) && Fifo(DispatchPending(c))
  {
    if c.queue.Some? {
      var m, rest := c.queue.value[0], c.queue.value[1..];
      DispatchReady(c.(queue := if rest == [] then None else Some(rest)), r, m);
      Regroup(c.dispatched, [m], rest);
      assert c.Waiting() == [m] + rest;
    }
  }

  lemma BeginSessionOk(c: Cell, r: Room, serial: nat, fromLocal: bool, started: bool)
    requires serial in c.futures && RoomOk(c, r) && Fifo(c)
    ensures RoomOk(BeginSession(c, serial, fromLocal, started), r) && Fifo(BeginSession(c, serial, fromLocal, started))
  {
    hide DispatchPending, Resolve;
    var c1 := c.(futures := c.futures - {serial}, resolved := c.resolved + Resolve(c.futures[serial], fromLocal));
    assert c.futures[serial].receiver == Network(r) && c1.futures == map[];
    if !started {
      DispatchPendingReady(Renew(c1.(busy := false), Network(r)), r);
    }
  }

  lemma EndExecutionOk(c: Cell, r: Room)
    requires c.executions > 0 && RoomOk(c, r) && Fifo(c)
    ensures RoomOk(EndExecution(c), r) && Fifo(EndExecution(c))
  {
    hide DispatchPending;
    if c.restore.Some? {
      var c1 := c.(executions := c.executions - 1, busy := false, restore := None);
      DispatchPendingReady(Install(c1, c.restore.value.serial, c.restore.value.receiver), r);
    }
  }

  lemma EndProxyOk(c: Cell, r: Room, receiver: Receiver)
    requires receiver in c.proxies && RoomOk(c, r) && Fifo(c)
    ensures RoomOk(EndProxy(c, receiver), r) && Fifo(EndProxy(c, receiver))
  {
    hide DispatchPending;
    if !c.busy {
      DispatchPendingReady(Renew(c.(proxies := c.proxies - multiset{receiver}), receiver), r);
    }
  }

  lemma TakeLocalOk(c: Cell, r: Room, m: Request)
    requires RoomOk(c, r) && Fifo(c) && !Draining(c, r)
    ensures RoomOk(TakeLocal(c, m), r) && Fifo(TakeLocal(c, m))
  {
    hide DispatchAndMark;
    if c.busy {
      Regroup(c.dispatched, c.Waiting(), [m]);
    } else {
      DispatchReady(c.(arrived := c.arrived + [m]), r, m);
    }
  }

  // ---- All rooms ----

  /** No local request is taken for a room while it drains. */
  ghost predicate Calm(c: Cell, e: Event) {
    e.Local? ==> !Draining(c, RoomOf(e))
  }

  lemma CellStepOk(c: Cell, e: Event)
    requires Enabled(c, e) && Calm(c, e) && RoomOk(c, RoomOf(e)) && Fifo(c)
    ensures RoomOk(CellStep(c, e), RoomOf(e)) && Fifo(CellStep(c, e))
  {
    hide RoomOk, Fifo, BeginSession, TakeLocal, EndExecution, EndProxy;
    match e
    case Local(m) => TakeLocalOk(c, m.room, m);
    case Session(room, serial, fromLocal, started) => BeginSessionOk(c, room, serial, fromLocal, started);
    case ExecutionEnds(room) => EndExecutionOk(c, room);
    case ProxyEnds(room, receiver) => EndProxyOk(c, room, receiver);
  }

  /** The room has become free: it is idle, or its oldest queued request has been dispatched. */
  ghost predicate Freed(c: Cell, c': Cell, r: Room) {
    if c.Waiting() == [] then Idle(c', r) && c'.dispatched == c.dispatched
    else
      && Dispatched(c', r) && c'.dispatched == c.dispatched + [c.Waiting()[0]]
      && c'.Waiting() == c.Waiting()[1..]
  }

  lemma DispatchPendingFrees(c: Cell, r: Room)
    requires Ready(c, r) && Fifo(c)
    ensures Freed(c, DispatchPending(c), r)
  {
    if c.queue.Some? {
      var m, rest := c.queue.value[0], c.queue.value[1..];
      DispatchReady(c.(queue := if rest == [] then None else Some(rest)), r, m);
    }
  }

  /**
    The life of a room.  A request starts an idle room and waits for a busy one; a session that starts is
    run; one that is aborted frees the room.  Of execution and proxy the first to end leaves the room
    draining or parked, and the second frees it.
  */
  lemma LifeCycle(c: Cell, e: Event)
    requires Enabled(c, e) && Calm(c, e) && RoomOk(c, RoomOf(e)) && Fifo(c)
    ensures var c', r := CellStep(c, e), RoomOf(e);
            match e
            case Local(m) =>
              if c.busy then c' == c.(queue := Some(c.Waiting() + [m]), arrived := c.arrived + [m])
              else Dispatched(c', r) && c'.dispatched == c.dispatched + [m]
            case Session(_, _, _, started) =>
              if started then Running(c', r) && c'.queue == c.queue else Freed(c, c', r)
            case ExecutionEnds(_) => if Parked(c, r) then Freed(c, c', r) else Draining(c', r) && c'.queue == c.queue
            case ProxyEnds(_, _) => if Draining(c, r) then Freed(c, c', r) else Parked(c', r) && c'.queue == c.queue
  {
    hide DispatchAndMark, BeginSession, EndExecution, EndProxy;
    match e
    case Local(m) =>
      if !c.busy {
        DispatchReady(c.(arrived := c.arrived + [m]), m.room, m);
      }
    case Session(r, serial, fromLocal, started) => SessionLife(c, r, serial, fromLocal, started);
    case ExecutionEnds(r) => ExecutionLife(c, r);
    case ProxyEnds(r, receiver) => ProxyLife(c, r, receiver);
  }

  lemma SessionLife(c: Cell, r: Room, serial: nat, fromLocal: bool, started: bool)
    requires serial in c.futures && RoomOk(c, r) && Fifo(c)
    ensures var c' := BeginSession(c, serial, fromLocal, started);
            if started then Running(c', r) && c'.queue == c.queue else Freed(c, c', r)
  {
    hide DispatchPending, Freed, Resolve;
    var c1 := c.(futures := c.futures - {serial}, resolved := c.resolved + Resolve(c.futures[serial], fromLocal));
    assert c.futures[serial].receiver == Network(r) && c1.futures == map[];
    if !started {
      FreesFrom(c, Renew(c1.(busy := false), Network(r)), r);
    }
  }

  lemma ExecutionLife(c: Cell, r: Room)
    requires c.executions > 0 && RoomOk(c, r) && Fifo(c)
    ensures var c' := EndExecution(c);
            if Parked(c, r) then Freed(c, c', r) else Draining(c', r) && c'.queue == c.queue
  {
    hide DispatchPending, Freed;
    if Parked(c, r) {
      var c1 := c.(executions := c.executions - 1, busy := false, restore := None);
      FreesFrom(c, Install(c1, c.restore.value.serial, c.restore.value.receiver), r);
    }
  }

  lemma ProxyLife(c: Cell, r: Room, receiver: Receiver)
    requires receiver in c.proxies && RoomOk(c, r) && Fifo(c)
    ensures var c' := EndProxy(c, receiver);
            if Draining(c, r) then Freed(c, c', r) else Parked(c', r) && c'.queue == c.queue
  {
    hide DispatchPending, Freed;
    if Draining(c, r) {
      FreesFrom(c, Renew(c.(proxies := c.proxies - multiset{receiver}), receiver), r);
    }
  }

  lemma FreesFrom(c: Cell, c1: Cell, r: Room)
    requires Ready(c1, r) && Fifo(c1) && c1.queue == c.queue && c1.dispatched == c.dispatched
    ensures Freed(c, DispatchPending(c1), r)
  {
    hide DispatchPending;
    DispatchPendingFrees(c1, r);
  }

  /** A room starts with one Phase-1 future on its network receiver. */
  function NewRoom(r: Room): Cell {
    Renew(Cell(map[], None, false, None, None, multiset{}, 0, 0, [], [], [], []), Network(r))
  }

  /**
    The rooms after a run of events, if each event was of a configured room and possible there, and
    no local request was taken for a draining room.
  */
  ghost function Exec(rooms: set<Room>, events: seq<Event>): Option<map<Room, Cell>> {
    if events == [] then Some(map r | r in rooms :: NewRoom(r))
    else
      var before := Exec(rooms, events[..|events| - 1]);
      var e := events[|events| - 1];
      var r := RoomOf(e);
      if before.Some? && r in before.value && Enabled(before.value[r], e) && Calm(before.value[r], e)
      then Some(before.value[r := CellStep(before.value[r], e)]) else None
  }

  lemma {:induction false} RunOk(rooms: set<Room>, events: seq<Event>)
    requires Exec(rooms, events).Some?
    ensures Exec(rooms, events).value.Keys == rooms
    ensures forall r :: r in rooms ==> RoomOk(Exec(rooms, events).value[r], r) && Fifo(Exec(rooms, events).value[r])
  {
    if events != [] {
      hide CellStep, RoomOk, Fifo, Enabled, Calm;
      RunOk(rooms, events[..|events| - 1]);
      var e := events[|events| - 1];
      CellStepOk(Exec(rooms, events[..|events| - 1]).value[RoomOf(e)], e);
    }
  }

  /** How many futures, proxies and parked futures own the room's network receiver. */
  ghost function Owners(c: Cell, r: Room): nat {
    |set serial | serial in c.futures && c.futures[serial].receiver == Network(r)|
    + c.proxies[Network(r)]
    + if c.restore.Some? && c.restore.value.receiver == Network(r) then 1 else 0
  }

  lemma OneOwner(c: Cell, r: Room)
    requires RoomOk(c, r)
    ensures Owners(c, r) == 1
  {
    var owning := set serial | serial in c.futures && c.futures[serial].receiver == Network(r);
    if Idle(c, r) {
      assert owning == {c.rpc.value};
    } else if Dispatched(c, r) {
      var serial, m :| serial in c.futures && c.futures == map[serial := Phase1(Network(r), Some(m))];
      assert owning == {serial};
    } else {
      assert owning == {};
    }
  }

  /**
    The scheduler invariant: after every such run each room's network receiver has exactly one
    owner, at most one execution is live, a room that is neither busy nor draining has a live
    channel for the next request, and every future still without a request can be sent one.
  */
  lemma SchedulerInvariant(rooms: set<Room>, events: seq<Event>, r: Room)
    requires Exec(rooms, events).Some? && r in rooms
    ensures r in Exec(rooms, events).value
    ensures var c := Exec(rooms, events).value[r];
            && Owners(c, r) == 1 && c.executions <= 1
            && (!c.busy && !Draining(c, r) ==> c.rpc.Some? && c.rpc.value in c.futures)
            && (forall serial :: serial in c.futures && c.futures[serial].request == None ==> c.rpc == Some(serial))
  {
    RunOk(rooms, events);
    OneOwner(Exec(rooms, events).value[r], r);
  }

  /** The local requests among the events of a run that are for one room. */
  function Requests(events: seq<Event>, r: Room): seq<Request> {
    if events == [] then []
    else
      var e := events[|events| - 1];
      Requests(events[..|events| - 1], r) + if e.Local? && e.request.room == r then [e.request] else []
  }

  lemma DispatchHistory(c: Cell, m: Request)
    ensures DispatchAndMark(c, m).arrived == c.arrived
  {
  }

  lemma StepHistory(c: Cell, e: Event)
    requires Enabled(c, e)
    ensures CellStep(c, e).arrived == c.arrived + if e.Local? then [e.request] else []
  {
    hide DispatchAndMark;
    forall c1: Cell, m ensures DispatchAndMark(c1, m).arrived == c1.arrived {
      DispatchHistory(c1, m);
    }
  }

  lemma {:induction false} ArrivedAre(rooms: set<Room>, events: seq<Event>, r: Room)
    requires Exec(rooms, events).Some? && r in rooms
    ensures r in Exec(rooms, events).value && Exec(rooms, events).value[r].arrived == Requests(events, r)
  {
    if events != [] {
      hide CellStep, Enabled, Calm;
      ArrivedAre(rooms, events[..|events| - 1], r);
      var e := events[|events| - 1];
      StepHistory(Exec(rooms, events[..|events| - 1]).value[RoomOf(e)], e);
    }
  }

  /**
    Per-room order: after every such run, the requests dispatched to a room followed by the queued
    ones are exactly the requests the run brought for it, in order; none was refused, and some are
    queued only while the room is busy or draining.
  */
  lemma PerRoomFifo(rooms: set<Room>, events: seq<Event>, r: Room)
    requires Exec(rooms, events).Some? && r in rooms
    ensures r in Exec(rooms, events).value
    ensures var c := Exec(rooms, events).value[r];
            && Requests(events, r) == c.dispatched + c.Waiting() && c.refused == []
            && (c.queue.Some? ==> c.busy || Draining(c, r))
  {
    RunOk(rooms, events);
    ArrivedAre(rooms, events, r);
  }

  // ---- What becomes of a dispatched request ----

  function RequestsOf(rs: seq<Resolved>): seq<Request> {
    seq(|rs|, i requires 0 <= i < |rs| => rs[i].request)
  }

  /** Every dispatched request has been resolved, in order, but for one that a future still holds. */
  ghost predicate Accounted(c: Cell) {
    && (forall serial :: serial in c.futures && c.futures[serial].request.Some? ==>
          c.dispatched == RequestsOf(c.resolved) + [c.futures[serial].request.value])
    && ((forall serial :: serial in c.futures ==> c.futures[serial].request.None?) ==>
          c.dispatched == RequestsOf(c.resolved))
  }

  lemma DispatchPendingAccounted(c: Cell, r: Room)
    requires Ready(c, r) && Fifo(c) && Accounted(c)
    ensures Accounted(DispatchPending(c))
  {
    if c.queue.Some? {
      var m, rest := c.queue.value[0], c.queue.value[1..];
      DispatchReady(c.(queue := if rest == [] then None else Some(rest)), r, m);
      var c' := DispatchPending(c);
      assert c.rpc.value in c'.futures;
    }
  }

  lemma BeginSessionAccounted(c: Cell, r: Room, serial: nat, fromLocal: bool, started: bool)
    requires serial in c.futures && RoomOk(c, r) && Fifo(c) && Accounted(c)
    ensures Accounted(BeginSession(c, serial, fromLocal, started))
  {
    hide DispatchPending;
    var c1 := c.(futures := c.futures - {serial}, resolved := c.resolved + Resolve(c.futures[serial], fromLocal));
    assert c.futures[serial].receiver == Network(r) && c1.futures == map[];
    assert RequestsOf(c1.resolved) == RequestsOf(c.resolved) + RequestsOf(Resolve(c.futures[serial], fromLocal));
    assert c1.dispatched == RequestsOf(c1.resolved);
    if !started {
      DispatchPendingAccounted(Renew(c1.(busy := false), Network(r)), r);
    }
  }

  lemma LocalAccounted(c: Cell, r: Room, m: Request)
    requires RoomOk(c, r) && !Draining(c, r) && Accounted(c)
    ensures Accounted(TakeLocal(c, m))
  {
    hide DispatchAndMark;
    if !c.busy {
      var c1 := c.(arrived := c.arrived + [m]);
      DispatchReady(c1, r, m);
      assert c.rpc.value in DispatchAndMark(c1, m).futures;
    }
  }

  lemma EndsAccounted(c: Cell, r: Room, receiver: Receiver)
    requires RoomOk(c, r) && Fifo(c) && Accounted(c)
    ensures c.executions > 0 ==> Accounted(EndExecution(c))
    ensures receiver in c.proxies ==> Accounted(EndProxy(c, receiver))
  {
    hide DispatchPending;
    if c.executions > 0 && c.restore.Some? {
      var c1 := c.(executions := c.executions - 1, busy := false, restore := None);
      DispatchPendingAccounted(Install(c1, c.restore.value.serial, c.restore.value.receiver), r);
    }
    if receiver in c.proxies && !c.busy {
      DispatchPendingAccounted(Renew(c.(proxies := c.proxies - multiset{receiver}), receiver), r);
    }
  }

  lemma StepAccounted(c: Cell, e: Event)
    requires Enabled(c, e) && Calm(c, e) && RoomOk(c, RoomOf(e)) && Fifo(c) && Accounted(c)
    ensures Accounted(CellStep(c, e))
  {
    hide TakeLocal, BeginSession, EndExecution, EndProxy, RoomOk, Fifo, Accounted;
    match e
    case Local(m) => LocalAccounted(c, m.room, m);
    case Session(room, serial, fromLocal, started) => BeginSessionAccounted(c, room, serial, fromLocal, started);
    case ExecutionEnds(room) => EndsAccounted(c, room, Virtual);
    case ProxyEnds(room, receiver) => EndsAccounted(c, room, receiver);
  }

  /**
    In every such run the dispatched requests of a room are, in order, those that began a session and
    those dropped for an invitation, followed by the one that its future holds, if any.
  */
  lemma {:induction false} RequestFate(rooms: set<Room>, events: seq<Event>, r: Room)
    requires Exec(rooms, events).Some? && r in rooms
    ensures r in Exec(rooms, events).value && Accounted(Exec(rooms, events).value[r])
  {
    if events != [] {
      hide CellStep, RoomOk, Fifo, Enabled, Calm, Accounted;
      RequestFate(rooms, events[..|events| - 1], r);
      RunOk(rooms, events[..|events| - 1]);
      var e, c := events[|events| - 1], Exec(rooms, events[..|events| - 1]).value[r];
      if RoomOf(e) == r {
        StepAccounted(c, e);
      }
    }
  }

  /** A request is dropped exactly if a session that a peer proposed begins on the future that holds it. */
  lemma DroppedIff(c: Cell, e: Event, m: Request)
    requires Enabled(c, e)
    ensures CellStep(c, e).resolved == c.resolved + [Resolved(m, false)] <==>
              e.Session? && !e.fromLocal && c.futures[e.serial].request == Some(m)
  {
    hide DispatchAndMark;
    forall c1: Cell, x ensures DispatchAndMark(c1, x).resolved == c1.resolved {
      DispatchResolves(c1, x);
    }
    var c' := CellStep(c, e);
    if e.Session? {
      assert c'.resolved == c.resolved + Resolve(c.futures[e.serial], e.fromLocal);
      assert |c'.resolved| == |c.resolved| + 1 ==>
          c'.resolved[|c.resolved|] == Resolved(c.futures[e.serial].request.value, e.fromLocal);
    } else {
      assert c'.resolved == c.resolved;
    }
  }

  lemma DispatchResolves(c: Cell, m: Request)
    ensures DispatchAndMark(c, m).resolved == c.resolved
  {
  }

  // ---- Why draining rooms must be left alone ----

  /**
    A local request keeps a room in order exactly when the room is not draining.  While it drains, a
    channel left over from a session that a peer began makes the request refused; without one, a
    second Phase-1 future is made, on a receiver that nothing is sent to.
  */
  lemma LocalKeepsOrderIff(c: Cell, r: Room, m: Request)
    requires RoomOk(c, r) && Fifo(c)
    ensures RoomOk(TakeLocal(c, m), r) <==> !(Draining(c, r) && c.rpc == None)
    ensures RoomOk(TakeLocal(c, m), r) && Fifo(TakeLocal(c, m)) <==> !Draining(c, r)
    ensures Draining(c, r) && c.rpc.Some? ==> TakeLocal(c, m).refused == [m]
  {
    var c' := TakeLocal(c, m);
    if !Draining(c, r) {
      TakeLocalOk(c, r, m);
    } else if c.rpc.Some? {
      assert c'.refused == [m];
    } else {
      assert c'.futures[c.next].receiver == Virtual && c'.proxies == multiset{Network(r)};
    }
  }

  lemma OneMore(rooms: set<Room>, events: seq<Event>, e: Event, c: Cell)
    requires Exec(rooms, events).Some? && RoomOf(e) in Exec(rooms, events).value
    requires Exec(rooms, events).value[RoomOf(e)] == c && Enabled(c, e) && Calm(c, e)
    ensures Exec(rooms, events + [e]) == Some(Exec(rooms, events).value[RoomOf(e) := CellStep(c, e)])
  {
    hide CellStep, Enabled, Calm;
    assert (events + [e])[..|events|] == events;
  }

  /** Such a room is reached: a locally started session whose execution ends before its proxy. */
  lemma DrainingIsReached(m: Request)
    ensures var r := m.room;
            var events := [] + [Local(m)] + [Session(r, 0, true, true)] + [ExecutionEnds(r)];
            && Exec({r}, events).Some? && r in Exec({r}, events).value
            && Draining(Exec({r}, events).value[r], r) && Exec({r}, events).value[r].rpc == None
  {
    hide Exec;
    var r := m.room;
    var e1, e2, e3 := Local(m), Session(r, 0, true, true), ExecutionEnds(r);
    NoEvents({r});
    var c0 := NewRoom(r);
    DispatchReady(c0.(arrived := [m]), r, m);
    var c1, c2 := CellStep(c0, e1), CellStep(CellStep(c0, e1), e2);
    OneMore({r}, [], e1, c0);
    OneMore({r}, [] + [e1], e2, c1);
    OneMore({r}, [] + [e1] + [e2], e3, c2);
  }

  lemma NoEvents(rooms: set<Room>)
    ensures Exec(rooms, []) == Some(map r | r in rooms :: NewRoom(r))
  {
  }
}
