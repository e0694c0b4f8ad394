/** The session pipeline is an order-preserving filter of what arrives for the room. */
module PipelineOrder {
  import opened Basics
  import opened Messages
  import opened Peers
  import opened Pipeline

  // ---- Every step keeps the stage's invariant ----

  /** The invitation itself is not kept. */
  lemma InvitedOk(buffered: Stream, seen1: Stream, m: IncomingRequest)
    requires StageOk(Waiting(buffered, seen1)) && m.context.messageType == Coordination
    ensures StageOk(Joining(m.context.sessionId, buffered, seen1, [m]))
  {
    hide Computations;
    assert OfSession(m.context.sessionId, [m]) == [];
    assert Candidates(m.context.sessionId, seen1, [m]) == Computations(seen1);
  }

  lemma WaitingPoll(read: StartReader, s: RoomState, request: bool)
    requires |s.rx| <= |s.arrived| && s.stage.Waiting? && StageOk(s.stage)
    ensures StageOk(Step(read, s, Poll(request)).stage)
  {
    hide Candidates, Computations, OfSession;
    var g := s.stage;
    if s.rx == [] {
      assert g.seen1 + Taken(s) == g.seen1;
    } else {
      var m := s.rx[0];
      assert Taken(s) == [m];
      if m.context.messageType == Coordination {
        InvitedOk(g.buffered, g.seen1, m);
      } else {
        ComputationsMore(g.seen1, m);
        BufferFirst(Computations(g.seen1), m);
      }
    }
  }

  /** Phase 2 has one candidate more exactly if it tries to keep the message. */
  lemma CandidatesMore(session: Bytes, seen1: Stream, seen2: Stream, m: IncomingRequest)
    ensures Candidates(session, seen1, seen2 + [m]) == Candidates(session, seen1, seen2)
         + if m.context.messageType == Computation && m.context.sessionId == session then [m] else []
  {
    OfSessionMore(session, seen2, m);
  }

  lemma JoiningPoll(read: StartReader, s: RoomState, timedOut: bool)
    requires |s.rx| <= |s.arrived| && s.stage.Joining? && StageOk(s.stage)
    ensures StageOk(Step(read, s, Poll(timedOut)).stage)
  {
    hide Candidates;
    var g := s.stage;
    if s.rx == [] {
      assert g.seen2 + Taken(s) == g.seen2;
    } else {
      var m := s.rx[0];
      assert Taken(s) == [m];
      CandidatesMore(g.session, g.seen1, g.seen2, m);
      BufferFirst(Candidates(g.session, g.seen1, g.seen2), m);
      if m.context.messageType == Coordination && m.context.sessionId == g.session && read(m.payload).Some? {
        StartOk(g.session, read(m.payload).value, g.seen1, g.seen2 + [m]);
      }
    }
    RestartOk();
  }

  lemma RestartOk()
    ensures StageOk(Waiting([], []))
  {
  }

  lemma StartOk(session: Bytes, peerset: Peerset, seen1: Stream, seen2: Stream)
    ensures var early := FirstOf(Candidates(session, seen1, seen2));
            StageOk(Forwarding(session, peerset, early, [], false, seen1, seen2, [], early, [], []))
  {
    var early := FirstOf(Candidates(session, seen1, seen2));
    assert early[..0] == [] && early[0..] == early;
  }

  /** What the proxy tried to forward, and what it put in the channel. */
  ghost predicate Tracks(f: Forwarded, attempts: seq<Attempt>, received: Stream, tried: Stream) {
    Sent(attempts + f.attempts) == received + f.channel && Tried(attempts + f.attempts) == tried
  }

  lemma ForwardTracks(session: Bytes, peerset: Peerset, m: IncomingRequest, attempts: seq<Attempt>, received: Stream,
                      channel: Stream)
    requires Sent(attempts) == received + channel
    ensures Tracks(ForwardOrReject(session, peerset, m, channel), attempts, received,
                   Tried(attempts) + Matching(session, peerset, [m]))
  {
    var f := ForwardOrReject(session, peerset, m, channel);
    assert [m][..0] == [];
    match Indexed(session, peerset, m)
    case None =>
      assert attempts + f.attempts == attempts;
    case Some(indexed) =>
      OneMoreAttempt(attempts, f.attempts[0]);
      Regroup(received, channel, [indexed]);
  }

  lemma BufferedPoll(g: Stage, f: Forwarded)
    requires g.Forwarding? && StageOk(g) && g.buffered != []
    requires f == ForwardOrReject(g.session, g.peerset, g.buffered[0], g.channel)
    ensures StageOk(g.(buffered := g.buffered[1..], channel := f.channel, attempts := g.attempts + f.attempts))
  {
    hide FirstOf, Candidates, ForwardOrReject, Sent, Tried;
    var k := |g.early| - |g.buffered|;
    var m := g.buffered[0];
    assert g.early[..k + 1] == g.early[..k] + [m] && g.buffered[1..] == g.early[k + 1..];
    ForwardTracks(g.session, g.peerset, m, g.attempts, g.received, g.channel);
    MatchingMore(g.session, g.peerset, g.early[..k], m);
    assert Matching(g.session, g.peerset, []) == [];
  }

  lemma LivePoll(g: Stage, m: IncomingRequest, f: Forwarded)
    requires g.Forwarding? && StageOk(g) && g.buffered == []
    requires f == ForwardOrReject(g.session, g.peerset, m, g.channel)
    ensures StageOk(g.(live := g.live + [m], channel := f.channel, attempts := g.attempts + f.attempts))
  {
    hide FirstOf, Candidates, ForwardOrReject, Sent, Tried, Matching;
    ForwardTracks(g.session, g.peerset, m, g.attempts, g.received, g.channel);
    MatchingMore(g.session, g.peerset, g.live, m);
    Regroup(Matching(g.session, g.peerset, g.early[..|g.early|]), Matching(g.session, g.peerset, g.live),
            Matching(g.session, g.peerset, [m]));
  }

  lemma ForwardingPoll(read: StartReader, s: RoomState)
    requires |s.rx| <= |s.arrived| && s.stage.Forwarding? && StageOk(s.stage)
    ensures StageOk(Step(read, s, Poll(true)).stage) && StageOk(Step(read, s, Poll(false)).stage)
  {
    hide StageOk, ForwardOrReject;
    var g := s.stage;
    if g.closed {
      RestartOk();
    } else if g.buffered != [] {
      BufferedPoll(g, ForwardOrReject(g.session, g.peerset, g.buffered[0], g.channel));
    } else if s.rx != [] {
      LivePoll(g, s.rx[0], ForwardOrReject(g.session, g.peerset, s.rx[0], g.channel));
    }
  }

  lemma ReceiveOk(g: Stage)
    requires g.Forwarding? && StageOk(g) && g.channel != []
    ensures StageOk(g.(channel := g.channel[1..], received := g.received + [g.channel[0]]))
  {
    hide FirstOf, Candidates, Sent, Tried, Matching;
    Regroup(g.received, [g.channel[0]], g.channel[1..]);
    assert g.channel == [g.channel[0]] + g.channel[1..];
  }

  lemma CloseOk(g: Stage)
    requires g.Forwarding? && StageOk(g)
    ensures StageOk(g.(closed := true))
  {
  }

  lemma NegotiatedOk(session: Bytes, peerset: Peerset)
    ensures StageOk(Forwarding(session, peerset, [], [], false, [], [], [], [], [], []))
  {
  }

  lemma StepStage(read: StartReader, s: RoomState, a: Action)
    requires |s.rx| <= |s.arrived| && StageOk(s.stage)
    ensures StageOk(Step(read, s, a).stage)
  {
    hide StageOk, Phase1Poll, Phase2Poll, ForwardOrReject;
    RestartOk();
    match s.stage
    case Waiting(_, _) =>
      if a.Poll? {
        WaitingPoll(read, s, a.flag);
      }
    case Joining(_, _, _, _) =>
      if a.Poll? {
        JoiningPoll(read, s, a.flag);
      }
    case Negotiating(_) =>
      if a.Negotiated? {
        NegotiatedOk(a.session, a.peerset);
      }
    case Forwarding(_, _, _, channel, _, _, _, _, _, _, _) =>
      if a.Poll? {
        ForwardingPoll(read, s);
      } else if a.Receive? && channel != [] {
        ReceiveOk(s.stage);
      } else if a.Close? {
        CloseOk(s.stage);
      }
  }

  // ---- Messages are polled in arrival order ----

  lemma RestartArrivals(s: RoomState, rx: Stream, rejected: Stream, settled: Stream)
    requires |s.rx| <= |s.arrived| && ArrivalsOk(s) && |rx| <= |s.rx| && rx == s.rx[|s.rx| - |rx|..]
    ensures ArrivalsOk(Restart(s, rx, rejected, settled))
  {
    var tail := s.arrived[s.past..];
    assert tail[|tail| - |rx|..] == rx;
    assert s.arrived[|s.arrived| - |rx|..] == rx;
    assert [] + rx == rx;
  }

  /** A message moves from the front of what is to come to the end of what was seen. */
  lemma Shift(seen: Stream, live: Stream, rx: Stream)
    requires rx != []
    ensures (seen + (live + [rx[0]])) + rx[1..] == (seen + live) + rx
  {
  }

  lemma WaitingArrivals(read: StartReader, s: RoomState, request: bool)
    requires |s.rx| <= |s.arrived| && ArrivalsOk(s) && s.stage.Waiting?
    ensures ArrivalsOk(Step(read, s, Poll(request)))
  {
    hide BufferEarly, Phase2Poll, ForwardOrReject;
    if s.rx != [] {
      assert Taken(s) == [s.rx[0]];
      Shift(s.stage.seen1, [], s.rx);
      assert [] + [s.rx[0]] == [s.rx[0]] && s.stage.seen1 + [] == s.stage.seen1;
    } else {
      assert s.stage.seen1 + Taken(s) == s.stage.seen1;
    }
  }

  lemma JoiningArrivals(read: StartReader, s: RoomState, timedOut: bool)
    requires |s.rx| <= |s.arrived| && ArrivalsOk(s) && s.stage.Joining?
    ensures ArrivalsOk(Step(read, s, Poll(timedOut)))
  {
    hide BufferEarly, Restart;
    var g := s.stage;
    var p := Phase2Poll(read, g.session, s.rx, g.buffered, timedOut);
    assert p.rx == s.rx[|Taken(s)|..] && Taken(s) + p.rx == s.rx;
    RestartArrivals(s, p.rx, p.rejected, if Answers(g.session, Taken(s)) then Taken(s) else []);
    Regroup(g.seen1, g.seen2, Taken(s));
    Regroup(g.seen1 + g.seen2, Taken(s), p.rx);
    assert g.seen1 + (g.seen2 + Taken(s)) + [] == g.seen1 + (g.seen2 + Taken(s));
  }

  lemma ForwardingArrivals(read: StartReader, s: RoomState, flag: bool)
    requires |s.rx| <= |s.arrived| && ArrivalsOk(s) && s.stage.Forwarding?
    ensures ArrivalsOk(Step(read, s, Poll(flag)))
  {
    hide ForwardOrReject, Restart, Phase1Poll, Phase2Poll;
    var g := s.stage;
    if g.closed {
      assert s.rx == s.rx[0..];
      RestartArrivals(s, s.rx, [], g.buffered);
    } else if g.buffered == [] && s.rx != [] {
      Shift(g.seen1 + g.seen2, g.live, s.rx);
    }
  }

  lemma ArriveArrivals(s: RoomState, m: IncomingRequest)
    requires ArrivalsOk(s)
    ensures ArrivalsOk(s.(rx := s.rx + [m], arrived := s.arrived + [m]))
  {
    Regroup(Seen(s.stage), s.rx, [m]);
    assert (s.arrived + [m])[s.past..] == s.arrived[s.past..] + [m];
  }

  lemma DropSeen(arrived: Stream, past: nat, seen: Stream, rx: Stream)
    requires past <= |arrived| && arrived[past..] == seen + rx
    ensures past + |seen| <= |arrived| && arrived[past + |seen|..] == rx
  {
    assert |arrived| == past + |seen| + |rx|;
    forall i | 0 <= i < |rx| ensures arrived[past + |seen| + i] == rx[i] {
      assert arrived[past..][|seen| + i] == (seen + rx)[|seen| + i];
    }
  }

  lemma NegotiatedArrivals(s: RoomState, session: Bytes, peerset: Peerset)
    requires ArrivalsOk(s) && s.stage.Negotiating?
    ensures ArrivalsOk(s.(stage := Forwarding(session, peerset, [], [], false, [], [], [], [], [], []),
                          past := s.past + |s.stage.seen1|))
  {
    DropSeen(s.arrived, s.past, s.stage.seen1, s.rx);
    assert Seen(Forwarding(session, peerset, [], [], false, [], [], [], [], [], [])) == [];
  }

  lemma PollArrivals(read: StartReader, s: RoomState, flag: bool)
    requires |s.rx| <= |s.arrived| && ArrivalsOk(s)
    ensures ArrivalsOk(Step(read, s, Poll(flag)))
  {
    hide Phase1Poll, Phase2Poll, ForwardOrReject, Restart, ArrivalsOk;
    match s.stage
    case Waiting(_, _) => WaitingArrivals(read, s, flag);
    case Joining(_, _, _, _) => JoiningArrivals(read, s, flag);
    case Negotiating(_) =>
    case Forwarding(_, _, _, _, _, _, _, _, _, _, _) => ForwardingArrivals(read, s, flag);
  }

  lemma StepArrivals(read: StartReader, s: RoomState, a: Action)
    requires |s.rx| <= |s.arrived| && ArrivalsOk(s)
    ensures ArrivalsOk(Step(read, s, a))
  {
    hide Phase1Poll, Phase2Poll, ForwardOrReject, Restart;
    assert s.rx[0..] == s.rx;
    match a
    case Arrive(m) => ArriveArrivals(s, m);
    case Poll(flag) => PollArrivals(read, s, flag);
    case NoAgent =>
      if s.stage.Joining? {
        RestartArrivals(s, s.rx, s.stage.buffered, []);
      }
    case Negotiated(session, peerset) =>
      if s.stage.Negotiating? {
        NegotiatedArrivals(s, session, peerset);
      }
    case NegotiationFails => RestartArrivals(s, s.rx, [], []);
    case Receive =>
    case Close =>
  }

  lemma {:induction false} RunOk(read: StartReader, actions: seq<Action>)
    ensures StageOk(Exec(read, actions).stage) && ArrivalsOk(Exec(read, actions))
  {
    if actions != [] {
      hide StageOk, ArrivalsOk, Step;
      RunOk(read, actions[..|actions| - 1]);
      StepStage(read, Exec(read, actions[..|actions| - 1]), actions[|actions| - 1]);
      StepArrivals(read, Exec(read, actions[..|actions| - 1]), actions[|actions| - 1]);
    }
  }

  // ---- The filter ----

  lemma {:induction false} MatchingAppend(session: Bytes, peerset: Peerset, a: Stream, b: Stream)
    ensures Matching(session, peerset, a + b) == Matching(session, peerset, a) + Matching(session, peerset, b)
  {
    if b == [] {
      assert a + b == a;
    } else {
      var k := |b| - 1;
      assert a + b == a + b[..k] + [b[k]] && b == b[..k] + [b[k]];
      MatchingAppend(session, peerset, a, b[..k]);
      MatchingMore(session, peerset, a + b[..k], b[k]);
      MatchingMore(session, peerset, b[..k], b[k]);
    }
  }

  /** Dropping a message that the proxy would reject changes nothing. */
  lemma Skip(session: Bytes, peerset: Peerset, kept: Stream, ms: Stream, m: IncomingRequest, keep: bool)
    requires Matching(session, peerset, kept) == Matching(session, peerset, ms)
    requires Indexed(session, peerset, m).Some? ==> keep
    ensures Matching(session, peerset, kept + if keep then [m] else []) == Matching(session, peerset, ms + [m])
  {
    hide Matching;
    MatchingMore(session, peerset, ms, m);
    MatchingMore(session, peerset, kept, m);
    MatchingOne(session, peerset, m);
    assert kept + [] == kept;
  }

  /** Phase 1 and Phase 2 only turn away what the proxy would reject. */
  lemma {:induction false} MatchingComputations(session: Bytes, peerset: Peerset, ms: Stream)
    ensures Matching(session, peerset, Computations(ms)) == Matching(session, peerset, ms)
  {
    if ms != [] {
      hide Matching;
      var k := |ms| - 1;
      MatchingComputations(session, peerset, ms[..k]);
      Skip(session, peerset, Computations(ms[..k]), ms[..k], ms[k], ms[k].context.messageType == Computation);
      assert ms == ms[..k] + [ms[k]];
    }
  }

  lemma {:induction false} MatchingOfSession(session: Bytes, peerset: Peerset, ms: Stream)
    ensures Matching(session, peerset, OfSession(session, ms)) == Matching(session, peerset, ms)
  {
    if ms != [] {
      hide Matching;
      var k := |ms| - 1;
      MatchingOfSession(session, peerset, ms[..k]);
      Skip(session, peerset, OfSession(session, ms[..k]), ms[..k], ms[k],
           ms[k].context.messageType == Computation && ms[k].context.sessionId == session);
      assert ms == ms[..k] + [ms[k]];
    }
  }

  /** Early messages that found the buffer full. */
  function Late(g: Stage): Stream
    requires g.Forwarding?
  {
    Candidates(g.session, g.seen1, g.seen2)[|FirstOf(Candidates(g.session, g.seen1, g.seen2))|..]
  }

  /** Every attempt to forward found room in the channel. */
  ghost predicate RoomThroughout(attempts: seq<Attempt>) {
    forall a :: a in attempts ==> a.waiting < PROXY_ROOM
  }

  lemma {:induction false} SentIff(attempts: seq<Attempt>)
    ensures |Sent(attempts)| <= |Tried(attempts)|
    ensures |Sent(attempts)| == |Tried(attempts)| <==> RoomThroughout(attempts)
    ensures RoomThroughout(attempts) ==> Sent(attempts) == Tried(attempts)
  {
    if attempts != [] {
      var k := |attempts| - 1;
      SentIff(attempts[..k]);
      assert attempts == attempts[..k] + [attempts[k]];
    }
  }

  /** All that the room polled since Phase 1 began, filtered, in terms of what was kept and not. */
  lemma SeenMatching(g: Stage)
    requires g.Forwarding? && StageOk(g)
    ensures Matching(g.session, g.peerset, Seen(g))
         == Matching(g.session, g.peerset, g.early) + Matching(g.session, g.peerset, Late(g))
             + Matching(g.session, g.peerset, g.live)
  {
    hide Sent, Tried, Matching;
    var s, p := g.session, g.peerset;
    var candidates := Candidates(s, g.seen1, g.seen2);
    assert candidates == g.early + Late(g);
    MatchingAppend(s, p, g.early, Late(g));
    MatchingAppend(s, p, Computations(g.seen1), OfSession(s, g.seen2));
    MatchingComputations(s, p, g.seen1);
    MatchingOfSession(s, p, g.seen2);
    MatchingAppend(s, p, g.seen1, g.seen2);
    MatchingAppend(s, p, g.seen1 + g.seen2, g.live);
  }

  /** What the proxy has tried and still holds is all it was given, in order. */
  lemma TriedMatching(g: Stage)
    requires g.Forwarding? && StageOk(g)
    ensures Tried(g.attempts) + Matching(g.session, g.peerset, g.buffered)
         == Matching(g.session, g.peerset, g.early) + Matching(g.session, g.peerset, g.live)
  {
    hide Sent, Tried, FirstOf, Candidates;
    var k := |g.early| - |g.buffered|;
    assert g.early == g.early[..k] + g.buffered;
    MatchingAppend(g.session, g.peerset, g.early[..k], g.buffered);
  }

  /**
    The pipeline is an order-preserving filter.  In every run, once a session has started, what the
    execution has received, what waits for it, and what the proxy still has to hand on are exactly
    the computation messages of the session from members of its peer set, in arrival order, among
    all that was polled since the room began Phase 1 -- if and only if every forwarding found room
    in the channel and no such message came after the first 1024 early ones.
  */
  lemma SessionStream(read: StartReader, actions: seq<Action>)
    requires Exec(read, actions).stage.Forwarding?
    ensures var s := Exec(read, actions);
            var g := s.stage;
            && s.past <= |s.arrived| - |s.rx|
            && (g.received + g.channel + Matching(g.session, g.peerset, g.buffered)
                == Matching(g.session, g.peerset, s.arrived[s.past..|s.arrived| - |s.rx|])
                <==> RoomThroughout(g.attempts) && Matching(g.session, g.peerset, Late(g)) == [])
  {
    hide Exec, Sent, Tried, FirstOf, Candidates, Matching, Late, RoomThroughout;
    RunOk(read, actions);
    var s := Exec(read, actions);
    var g := s.stage;
    assert s.arrived[s.past..|s.arrived| - |s.rx|] == Seen(g) by {
      assert s.arrived[s.past..][..|Seen(g)|] == Seen(g);
    }
    SeenMatching(g);
    TriedMatching(g);
    SentIff(g.attempts);
  }

  /** With at most 1024 early messages nothing is late. */
  lemma FewAreNotLate(g: Stage)
    requires g.Forwarding? && |Candidates(g.session, g.seen1, g.seen2)| <= MAX_EARLY
    ensures Late(g) == []
  {
  }

  // ---- Every message is accounted for ----

  function Held(g: Stage): Stream {
    if g.Negotiating? then [] else g.buffered
  }

  function Times(ms: Stream, m: IncomingRequest): nat {
    multiset(ms)[m]
  }

  /** Each arrived message is queued, held, answered with an error, or gone, and only one of these. */
  ghost predicate Conserved(s: RoomState, m: IncomingRequest) {
    Times(s.arrived, m) == Times(s.rx, m) + Times(Held(s.stage), m) + Times(s.rejected, m) + Times(s.settled, m)
  }

  lemma TimesAppend(a: Stream, b: Stream, m: IncomingRequest)
    ensures Times(a + b, m) == Times(a, m) + Times(b, m)
  {
  }

  lemma TimesFront(a: Stream, m: IncomingRequest)
    requires a != []
    ensures Times(a, m) == Times([a[0]], m) + Times(a[1..], m)
  {
    assert a == [a[0]] + a[1..];
  }

  lemma TimesNone(m: IncomingRequest)
    ensures Times([], m) == 0
  {
  }

  /** What leaves the queue and the buffer in a step is rejected or gone. */
  lemma Moved(s: RoomState, t: RoomState, rejected: Stream, settled: Stream, m: IncomingRequest)
    requires Conserved(s, m) && t.arrived == s.arrived
    requires t.rejected == s.rejected + rejected && t.settled == s.settled + settled
    requires Times(s.rx, m) + Times(Held(s.stage), m)
          == Times(t.rx, m) + Times(Held(t.stage), m) + Times(rejected, m) + Times(settled, m)
    ensures Conserved(t, m)
  {
    hide Held, Times;
    TimesAppend(s.rejected, rejected, m);
    TimesAppend(s.settled, settled, m);
  }

  lemma BufferConserves(buffered: Stream, x: IncomingRequest, m: IncomingRequest)
    ensures var (kept, rejected) := BufferEarly(buffered, x);
            Times(kept, m) + Times(rejected, m) == Times(rejected + kept, m) == Times(buffered, m) + Times([x], m)
  {
    hide Times;
    TimesNone(m);
    TimesAppend(buffered, [x], m);
    TimesAppend([x], buffered, m);
    TimesAppend([], buffered + [x], m);
  }

  lemma WaitingConserved(read: StartReader, s: RoomState, request: bool, m: IncomingRequest)
    requires |s.rx| <= |s.arrived| && s.stage.Waiting? && Conserved(s, m)
    ensures Conserved(Step(read, s, Poll(request)), m)
  {
    hide Conserved, Times, BufferEarly;
    var p := Phase1Poll(s.rx, s.stage.buffered, request);
    TimesNone(m);
    assert [] + s.stage.buffered == s.stage.buffered && s.settled + [] == s.settled;
    if s.rx != [] {
      TimesFront(s.rx, m);
      BufferConserves(s.stage.buffered, s.rx[0], m);
    }
    Moved(s, Step(read, s, Poll(request)), p.rejected, if p.outcome.FromRemote? then [s.rx[0]] else [], m);
  }

  lemma JoiningConserved(read: StartReader, s: RoomState, timedOut: bool, m: IncomingRequest)
    requires |s.rx| <= |s.arrived| && s.stage.Joining? && Conserved(s, m)
    ensures Conserved(Step(read, s, Poll(timedOut)), m)
  {
    hide Conserved, Times, BufferEarly;
    var g := s.stage;
    var p := Phase2Poll(read, g.session, s.rx, g.buffered, timedOut);
    TimesNone(m);
    assert [] + g.buffered == g.buffered && s.settled + [] == s.settled && s.rejected + [] == s.rejected;
    if s.rx != [] {
      TimesFront(s.rx, m);
      BufferConserves(g.buffered, s.rx[0], m);
      TimesAppend([s.rx[0]], g.buffered, m);
      assert Taken(s) == [s.rx[0]];
    }
    Moved(s, Step(read, s, Poll(timedOut)), p.rejected, if Answers(g.session, Taken(s)) then Taken(s) else [], m);
  }

  lemma ForwardConserves(session: Bytes, peerset: Peerset, x: IncomingRequest, channel: Stream, m: IncomingRequest)
    ensures var f := ForwardOrReject(session, peerset, x, channel);
            Times(f.rejected, m) + Times(Passed(x, f), m) == Times([x], m)
  {
    hide Times;
    TimesNone(m);
  }

  lemma ForwardingConserved(read: StartReader, s: RoomState, flag: bool, m: IncomingRequest)
    requires |s.rx| <= |s.arrived| && s.stage.Forwarding? && Conserved(s, m)
    ensures Conserved(Step(read, s, Poll(flag)), m)
  {
    hide ForwardOrReject, Passed, Conserved, Times;
    var g := s.stage;
    var t := Step(read, s, Poll(flag));
    TimesNone(m);
    if g.closed {
      Moved(s, t, [], g.buffered, m);
    } else if g.buffered != [] {
      TimesFront(g.buffered, m);
      ForwardConserves(g.session, g.peerset, g.buffered[0], g.channel, m);
      var f := ForwardOrReject(g.session, g.peerset, g.buffered[0], g.channel);
      Moved(s, t, f.rejected, Passed(g.buffered[0], f), m);
    } else if s.rx != [] {
      TimesFront(s.rx, m);
      ForwardConserves(g.session, g.peerset, s.rx[0], g.channel, m);
      var f := ForwardOrReject(g.session, g.peerset, s.rx[0], g.channel);
      Moved(s, t, f.rejected, Passed(s.rx[0], f), m);
    }
  }

  lemma PollConserved(read: StartReader, s: RoomState, flag: bool, m: IncomingRequest)
    requires |s.rx| <= |s.arrived| && Conserved(s, m)
    ensures Conserved(Step(read, s, Poll(flag)), m)
  {
    hide Phase1Poll, Phase2Poll, ForwardOrReject, Conserved;
    match s.stage
    case Waiting(_, _) => WaitingConserved(read, s, flag, m);
    case Joining(_, _, _, _) => JoiningConserved(read, s, flag, m);
    case Negotiating(_) =>
    case Forwarding(_, _, _, _, _, _, _, _, _, _, _) => ForwardingConserved(read, s, flag, m);
  }

  lemma StepConserved(read: StartReader, s: RoomState, a: Action, m: IncomingRequest)
    requires |s.rx| <= |s.arrived| && Conserved(s, m)
    ensures Conserved(Step(read, s, a), m)
  {
    hide Phase1Poll, Phase2Poll, ForwardOrReject, Times;
    TimesNone(m);
    match a
    case Arrive(x) =>
      TimesAppend(s.rx, [x], m);
      TimesAppend(s.arrived, [x], m);
    case Poll(flag) => PollConserved(read, s, flag, m);
    case NoAgent =>
      if s.stage.Joining? {
        Moved(s, Step(read, s, a), s.stage.buffered, [], m);
      }
    case NegotiationFails =>
      if s.stage.Negotiating? {
        Moved(s, Step(read, s, a), [], [], m);
      }
    case _ =>
  }

  lemma HeldBound(g: Stage)
    requires StageOk(g)
    ensures |Held(g)| <= MAX_EARLY
  {
    hide Candidates, Computations, Matching, Sent, Tried;
  }

  /** The poll of Phase 2 looks at the timer: it does not if a coordination message came first. */
  predicate TimerSeen(rx: Stream) {
    rx == [] || rx[0].context.messageType == Computation
  }

  /**
    The timer ends Phase 2: a poll that finds it run out, and no coordination message, leaves the room in
    an empty Phase 1, with every message that was held or just polled answered with an error.
  */
  lemma TimeoutRestarts(read: StartReader, s: RoomState, m: IncomingRequest)
    requires |s.rx| <= |s.arrived| && s.stage.Joining? && TimerSeen(s.rx)
    ensures var s' := Step(read, s, Poll(true));
            && s'.stage == Waiting([], []) && s'.rx == s.rx[|Taken(s)|..] && s'.settled == s.settled
            && s.rejected <= s'.rejected
            && Times(s'.rejected[|s.rejected|..], m) == Times(s.stage.buffered, m) + Times(Taken(s), m)
  {
    hide Times, BufferEarly;
    var g, s' := s.stage, Step(read, s, Poll(true));
    TimesNone(m);
    assert [] + g.buffered == g.buffered;
    if s.rx != [] {
      assert Taken(s) == [s.rx[0]];
      BufferConserves(g.buffered, s.rx[0], m);
      TimesAppend([s.rx[0]], g.buffered, m);
    }
    assert s'.rejected[|s.rejected|..] == Phase2Poll(read, g.session, s.rx, g.buffered, true).rejected;
  }

  /** A start message that cannot be read does the same to what was held. */
  lemma UnreadableRestarts(read: StartReader, s: RoomState, flag: bool)
    requires |s.rx| <= |s.arrived| && s.stage.Joining? && Answers(s.stage.session, Taken(s))
    requires read(s.rx[0].payload) == None
    ensures var s' := Step(read, s, Poll(flag));
            s'.stage == Waiting([], []) && s'.rx == s.rx[1..] && s'.rejected == s.rejected + s.stage.buffered
  {
  }

  /** A local request takes the room out of Phase 1, unless an invitation came first; what was held is answered. */
  lemma RequestLeavesPhase1(read: StartReader, s: RoomState, m: IncomingRequest)
    requires |s.rx| <= |s.arrived| && s.stage.Waiting? && TimerSeen(s.rx)
    ensures var s' := Step(read, s, Poll(true));
            && s'.stage.Negotiating? && s'.rx == s.rx[|Taken(s)|..] && s.rejected <= s'.rejected
            && Times(s'.rejected[|s.rejected|..], m) == Times(s.stage.buffered, m) + Times(Taken(s), m)
  {
    hide Times, BufferEarly;
    var g, s' := s.stage, Step(read, s, Poll(true));
    TimesNone(m);
    assert [] + g.buffered == g.buffered;
    if s.rx != [] {
      assert Taken(s) == [s.rx[0]];
      BufferConserves(g.buffered, s.rx[0], m);
    }
    assert s'.rejected[|s.rejected|..] == Phase1Poll(s.rx, g.buffered, true).rejected;
  }

  /** In every run, each message that arrives is accounted for exactly once, and at most 1024 are held. */
  lemma {:induction false} NothingVanishes(read: StartReader, actions: seq<Action>, m: IncomingRequest)
    ensures Conserved(Exec(read, actions), m) && |Held(Exec(read, actions).stage)| <= MAX_EARLY
  {
    hide StageOk, ArrivalsOk, Step;
    RunOk(read, actions);
    HeldBound(Exec(read, actions).stage);
    if actions != [] {
      hide Conserved;
      NothingVanishes(read, actions[..|actions| - 1], m);
      StepConserved(read, Exec(read, actions[..|actions| - 1]), actions[|actions| - 1], m);
    }
  }
}
