/**
  The session pipeline of one room: Phase 1 waits for a session, Phase 2 for its start message, and
  the receiver proxy then feeds the execution.  Computation messages that come early are buffered.
*/
module Pipeline {
  import opened Basics
  import opened Messages
  import opened Peers

  type Stream = seq<IncomingRequest>

  /** At most this many early messages are kept. */
  const MAX_EARLY: nat := 1024

  /** Room in the proxy's channel: its buffer, and one slot for its only sender. */
  const PROXY_ROOM: nat := 1024 + 1

  /** Reads a start message as the peer set of the session, or fails. */
  type StartReader = Bytes -> Option<Peerset>

  // ---- One poll of each stage ----

  /** Keeps an early message while there is room; yields the new buffer and what is rejected. */
  function BufferEarly(buffered: Stream, m: IncomingRequest): (Stream, Stream) {
    if |buffered| >= MAX_EARLY then (buffered, [m]) else (buffered + [m], [])
  }

  datatype Outcome =
    | Pending
    | FromRemote(invitation: IncomingRequest, early: Stream)
    | FromLocal
    | Start(peerset: Peerset, early: Stream)
    | Abort

  /** What a poll of Phase 1 or Phase 2 leaves behind. */
  datatype Polled = Polled(
    rx: Stream, buffered: Stream, rejected: Stream, outcome: Outcome)

  function Phase1Poll(rx: Stream, buffered: Stream, request: bool): Polled {
    if rx != [] && rx[0].context.messageType == Coordination then
      Polled(rx[1..], [], [], FromRemote(rx[0], buffered))
    else
      var (kept, rejected) := if rx == [] then (buffered, []) else BufferEarly(buffered, rx[0]);
      var rest := if rx == [] then [] else rx[1..];
      if request then Polled(rest, [], rejected + kept, FromLocal) else Polled(rest, kept, rejected, Pending)
  }

  function Phase2Poll(read: StartReader, session: Bytes, rx: Stream, buffered: Stream,
                      timedOut: bool): Polled
  {
    if rx != [] && rx[0].context.messageType == Coordination then
      if rx[0].context.sessionId != session then Polled(rx[1..], buffered, [rx[0]], Pending)
      else
        match read(rx[0].payload)
        case None => Polled(rx[1..], [], buffered, Abort)
        case Some(peerset) => Polled(rx[1..], [], [], Start(peerset, buffered))
    else
      var (kept, rejected) :=
        if rx == [] then (buffered, [])
        else if rx[0].context.sessionId == session then BufferEarly(buffered, rx[0])
        else (buffered, [rx[0]]);
      var rest := if rx == [] then [] else rx[1..];
      if timedOut then Polled(rest, [], rejected + kept, Abort) else Polled(rest, kept, rejected, Pending)
  }

  /** The message as the execution gets it, if it is a computation message of the session from a member. */
  function Indexed(session: Bytes, peerset: Peerset, m: IncomingRequest): Option<IncomingRequest> {
    if m.context.messageType == Computation && m.context.sessionId == session then
      match peerset.IndexOf(m.peerId)
      case Some(i) => Some(m.(peerIndex := i % 0x1_0000))
      case None => None
    else None
  }

  /** A message the proxy tried to forward, and how many were waiting in the channel then. */
  datatype Attempt = Attempt(message: IncomingRequest, waiting: nat)

  datatype Forwarded = Forwarded(
    channel: Stream, rejected: Stream, attempts: seq<Attempt>)

  function ForwardOrReject(session: Bytes, peerset: Peerset, m: IncomingRequest, channel: Stream): Forwarded {
    match Indexed(session, peerset, m)
    case None => Forwarded(channel, [m], [])
    case Some(indexed) =>
      Forwarded(if |channel| < PROXY_ROOM then channel + [indexed] else channel, [], [Attempt(indexed, |channel|)])
  }

  // ---- The stages of a room ----

  /**
    The stage, with what it buffers and holds.  The fields below the line of each are history: what
    was polled in Phase 1, in Phase 2, and by the proxy, and the proxy's attempts to forward.
  */
  datatype Stage =
    | Waiting(buffered: Stream,
              seen1: Stream)
    | Joining(session: Bytes, buffered: Stream,
              seen1: Stream, seen2: Stream)
    | Negotiating(
        seen1: Stream)
    | Forwarding(session: Bytes, peerset: Peerset, buffered: Stream, channel: Stream, closed: bool,
                 seen1: Stream, seen2: Stream, live: Stream, early: Stream,
                 attempts: seq<Attempt>, received: Stream)

  /**
    The room: its network queue and its stage; what was answered with an error, and what left the
    pipeline otherwise; all that arrived, and how much of that is of earlier sessions.
  */
  datatype RoomState = RoomState(
    rx: Stream, stage: Stage, rejected: Stream, settled: Stream, arrived: Stream, past: nat)

  datatype Action =
    | Arrive(message: IncomingRequest) // from the network
    | Poll(flag: bool) // flag: a local request waits in Phase 1; the timer has run out in Phase 2
    | NoAgent // the protocol that a peer proposes is unknown
    | Negotiated(session: Bytes, peerset: Peerset)
    | NegotiationFails
    | Receive // the execution takes a message from the proxy's channel
    | Close // the execution drops its end of the channel

  /** The messages polled since the room last began Phase 1. */
  function Seen(g: Stage): Stream {
    match g
    case Waiting(_, seen1) => seen1
    case Joining(_, _, seen1, seen2) => seen1 + seen2
    case Negotiating(seen1) => seen1
    case Forwarding(_, _, _, _, _, seen1, seen2, live, _, _, _) => seen1 + seen2 + live
  }

  /** Back to Phase 1, with an empty buffer. */
  function Restart(s: RoomState, rx: Stream, rejected: Stream, settled: Stream): RoomState
    requires |rx| <= |s.arrived|
  {
    RoomState(rx, Waiting([], []), s.rejected + rejected, s.settled + settled, s.arrived, |s.arrived| - |rx|)
  }

  /** The message a poll takes from the queue, if there is one. */
  function Taken(s: RoomState): Stream {
    s.rx[..if s.rx == [] then 0 else 1]
  }

  /** The polled message answers the invitation, whether or not it can be read. */
  predicate Answers(session: Bytes, taken: Stream) {
    taken != [] && taken[0].context.messageType == Coordination && taken[0].context.sessionId == session
  }

  /** The message leaves the pipeline unless it was rejected. */
  function Passed(m: IncomingRequest, f: Forwarded): Stream {
    if f.attempts == [] then [] else [m]
  }

  function Step(read: StartReader, s: RoomState, a: Action): RoomState
    requires |s.rx| <= |s.arrived|
  {
    match (a, s.stage)
    case (Arrive(m), _) => s.(rx := s.rx + [m], arrived := s.arrived + [m])
    case (Poll(request), Waiting(buffered, seen1)) => (
      var p := Phase1Poll(s.rx, buffered, request);
      var s1 := s.(rx := p.rx, rejected := s.rejected + p.rejected);
      match p.outcome
      case FromRemote(m, early) =>
        s1.(stage := Joining(m.context.sessionId, early, seen1, [m]), settled := s.settled + [m])
      case FromLocal => s1.(stage := Negotiating(seen1 + Taken(s)))
      case _ => s1.(stage := Waiting(p.buffered, seen1 + Taken(s))))
    case (Poll(timedOut), Joining(session, buffered, seen1, seen2)) => (
      var p := Phase2Poll(read, session, s.rx, buffered, timedOut);
      match p.outcome
      case Abort => Restart(s, p.rx, p.rejected, if Answers(session, Taken(s)) then Taken(s) else [])
      case Start(peerset, early) =>
        s.(rx := p.rx, settled := s.settled + Taken(s),
          stage := Forwarding(session, peerset, early, [], false, seen1, seen2 + Taken(s), [], early, [], []))
      case _ => s.(rx := p.rx, rejected := s.rejected + p.rejected,
                   stage := Joining(session, p.buffered, seen1, seen2 + Taken(s))))
    case (Poll(_), Forwarding(session, peerset, buffered, channel, closed, _, _, live, _, attempts, _)) => (
      if closed then Restart(s, s.rx, [], buffered)
      else if buffered != [] then
        var f := ForwardOrReject(session, peerset, buffered[0], channel);
        s.(rejected := s.rejected + f.rejected, settled := s.settled + Passed(buffered[0], f),
          stage := s.stage.(buffered := buffered[1..], channel := f.channel, attempts := attempts + f.attempts))
      else if s.rx != [] then
        var f := ForwardOrReject(session, peerset, s.rx[0], channel);
        s.(rx := s.rx[1..], rejected := s.rejected + f.rejected, settled := s.settled + Passed(s.rx[0], f),
          stage := s.stage.(live := live + [s.rx[0]], channel := f.channel, attempts := attempts + f.attempts))
      else s)
    case (NoAgent, Joining(_, buffered, _, _)) => Restart(s, s.rx, buffered, [])
    case (Negotiated(session, peerset), Negotiating(seen1)) =>
      s.(stage := Forwarding(session, peerset, [], [], false, [], [], [], [], [], []), past := s.past + |seen1|)
    case (NegotiationFails, Negotiating(_)) => Restart(s, s.rx, [], [])
    case (Receive, Forwarding(_, _, _, channel, _, _, _, _, _, _, received)) =>
      if channel == [] then s else s.(stage := s.stage.(channel := channel[1..], received := received + [channel[0]]))
    case (Close, Forwarding(_, _, _, _, _, _, _, _, _, _, _)) => s.(stage := s.stage.(closed := true))
    case _ => s
  }

  /** The room after a run of actions, from a new Phase 1. */
  ghost function Exec(read: StartReader, actions: seq<Action>): (s: RoomState)
    ensures |s.rx| <= |s.arrived|
  {
    if actions == [] then RoomState([], Waiting([], []), [], [], [], 0)
    else Step(read, Exec(read, actions[..|actions| - 1]), actions[|actions| - 1])
  }

  // ---- What the execution should get ----

  /** The messages of the session from members, in order, with their senders' indices. */
  function Matching(session: Bytes, peerset: Peerset, ms: Stream): Stream {
    if ms == [] then []
    else
      var last := Indexed(session, peerset, ms[|ms| - 1]);
      Matching(session, peerset, ms[..|ms| - 1]) + if last.Some? then [last.value] else []
  }

  /** The messages that Phase 1 tries to keep. */
  function Computations(ms: Stream): Stream {
    if ms == [] then []
    else
      var m := ms[|ms| - 1];
      Computations(ms[..|ms| - 1]) + if m.context.messageType == Computation then [m] else []
  }

  /** The messages that Phase 2 tries to keep. */
  function OfSession(session: Bytes, ms: Stream): Stream {
    if ms == [] then []
    else
      var m := ms[|ms| - 1];
      OfSession(session, ms[..|ms| - 1])
      + if m.context.messageType == Computation && m.context.sessionId == session then [m] else []
  }

  function FirstOf(ms: Stream): Stream {
    if |ms| <= MAX_EARLY then ms else ms[..MAX_EARLY]
  }

  /** Early messages, in order, whether or not there was room for them. */
  function Candidates(session: Bytes, seen1: Stream, seen2: Stream): Stream {
    Computations(seen1) + OfSession(session, seen2)
  }

  /** Attempts that found room in the channel. */
  function Sent(attempts: seq<Attempt>): Stream {
    if attempts == [] then []
    else
      var a := attempts[|attempts| - 1];
      Sent(attempts[..|attempts| - 1]) + if a.waiting < PROXY_ROOM then [a.message] else []
  }

  function Tried(attempts: seq<Attempt>): Stream {
    if attempts == [] then [] else Tried(attempts[..|attempts| - 1]) + [attempts[|attempts| - 1].message]
  }

  // ---- Invariants ----

  ghost predicate StageOk(g: Stage) {
    match g
    case Waiting(buffered, seen1) => buffered == FirstOf(Computations(seen1))
    case Joining(session, buffered, seen1, seen2) => buffered == FirstOf(Candidates(session, seen1, seen2))
    case Negotiating(_) => true
    case Forwarding(session, peerset, buffered, channel, _, seen1, seen2, live, early, attempts, received) =>
      && early == FirstOf(Candidates(session, seen1, seen2))
      && |buffered| <= |early| && buffered == early[|early| - |buffered|..]
      && (live != [] ==> buffered == [])
      && Tried(attempts) == Matching(session, peerset, early[..|early| - |buffered|]) + Matching(session, peerset, live)
      && Sent(attempts) == received + channel
  }

  /** Nothing is lost before it is polled, and messages are polled in arrival order. */
  ghost predicate ArrivalsOk(s: RoomState) {
    s.past <= |s.arrived| && s.arrived[s.past..] == Seen(s.stage) + s.rx
  }

  lemma ComputationsMore(ms: Stream, m: IncomingRequest)
    ensures Computations(ms + [m]) == Computations(ms) + if m.context.messageType == Computation then [m] else []
  {
    assert (ms + [m])[..|ms|] == ms;
  }

  lemma OfSessionMore(session: Bytes, ms: Stream, m: IncomingRequest)
    ensures OfSession(session, ms + [m]) == OfSession(session, ms)
         + if m.context.messageType == Computation && m.context.sessionId == session then [m] else []
  {
    assert (ms + [m])[..|ms|] == ms;
  }

  lemma MatchingMore(session: Bytes, peerset: Peerset, ms: Stream, m: IncomingRequest)
    ensures Matching(session, peerset, ms + [m])
         == Matching(session, peerset, ms) + Matching(session, peerset, [m])
  {
    assert (ms + [m])[..|ms|] == ms && [m][..0] == [];
  }

  lemma MatchingOne(session: Bytes, peerset: Peerset, m: IncomingRequest)
    ensures Indexed(session, peerset, m).None? ==> Matching(session, peerset, [m]) == []
  {
    assert [m][..0] == [];
  }

  lemma OneMoreAttempt(attempts: seq<Attempt>, a: Attempt)
    ensures Tried(attempts + [a]) == Tried(attempts) + [a.message]
    ensures Sent(attempts + [a]) == Sent(attempts) + if a.waiting < PROXY_ROOM then [a.message] else []
  {
    assert (attempts + [a])[..|attempts|] == attempts;
  }

  /** Buffering one candidate more keeps the first ones. */
  lemma BufferFirst(candidates: Stream, m: IncomingRequest)
    ensures BufferEarly(FirstOf(candidates), m).0 == FirstOf(candidates + [m])
  {
  }
}
