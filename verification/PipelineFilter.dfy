/** What the execution gets from the pipeline, told from the arrivals and the peer set alone. */
module PipelineFilter {
  import opened Basics
  import opened Messages
  import opened Peers
  import opened Pipeline
  import opened PipelineOrder

  /** A computation message of the session from a member. */
  predicate Wanted(session: Bytes, peers: seq<PeerId>, m: IncomingRequest) {
    m.context.messageType == Computation && m.context.sessionId == session && m.peerId in peers
  }

  /** The wanted ones among the messages, in order. */
  function WantedOf(session: Bytes, peers: seq<PeerId>, ms: Stream): Stream {
    if ms == [] then []
    else
      var m := ms[|ms| - 1];
      WantedOf(session, peers, ms[..|ms| - 1]) + if Wanted(session, peers, m) then [m] else []
  }

  /** The message is x but for its index, which is that of its sender among the peers. */
  predicate Stamped(peers: seq<PeerId>, x: IncomingRequest, m: IncomingRequest) {
    m == x.(peerIndex := m.peerIndex) && m.peerIndex < |peers| && peers[m.peerIndex] == m.peerId
  }

  ghost predicate AllStamped(peers: seq<PeerId>, xs: Stream, ms: Stream) {
    |xs| == |ms| && forall i :: 0 <= i < |xs| ==> Stamped(peers, xs[i], ms[i])
  }

  lemma IndexedIsStamped(session: Bytes, peerset: Peerset, m: IncomingRequest)
    requires |peerset.peers| <= 0x1_0000
    ensures Indexed(session, peerset, m).Some? <==> Wanted(session, peerset.peers, m)
    ensures Indexed(session, peerset, m).Some? ==> Stamped(peerset.peers, m, Indexed(session, peerset, m).value)
  {
  }

  lemma {:induction false} MatchingIsStamped(session: Bytes, peerset: Peerset, ms: Stream)
    requires |peerset.peers| <= 0x1_0000
    ensures AllStamped(peerset.peers, WantedOf(session, peerset.peers, ms), Matching(session, peerset, ms))
  {
    if ms != [] {
      hide Indexed, Stamped, Wanted;
      MatchingIsStamped(session, peerset, ms[..|ms| - 1]);
      IndexedIsStamped(session, peerset, ms[|ms| - 1]);
    }
  }

  lemma {:induction false} WantedAre(session: Bytes, peers: seq<PeerId>, ms: Stream)
    ensures forall m :: m in WantedOf(session, peers, ms) <==> m in ms && Wanted(session, peers, m)
  {
    if ms != [] {
      hide Wanted;
      WantedAre(session, peers, ms[..|ms| - 1]);
      assert ms == ms[..|ms| - 1] + [ms[|ms| - 1]];
    }
  }

  lemma {:induction false} SentAreTried(attempts: seq<Attempt>)
    ensures forall m :: m in Sent(attempts) ==> m in Tried(attempts)
  {
    if attempts != [] {
      SentAreTried(attempts[..|attempts| - 1]);
    }
  }

  /** A forwarded message is one of the wanted that arrived, with its sender's index. */
  ghost predicate Delivered(session: Bytes, peers: seq<PeerId>, arrived: Stream, m: IncomingRequest) {
    exists x :: x in arrived && Wanted(session, peers, x) && Stamped(peers, x, m)
  }

  lemma MatchingDelivered(session: Bytes, peerset: Peerset, ms: Stream, m: IncomingRequest)
    requires |peerset.peers| <= 0x1_0000 && m in Matching(session, peerset, ms)
    ensures Delivered(session, peerset.peers, ms, m)
  {
    hide Stamped, Wanted;
    MatchingIsStamped(session, peerset, ms);
    WantedAre(session, peerset.peers, ms);
    var i :| 0 <= i < |Matching(session, peerset, ms)| && Matching(session, peerset, ms)[i] == m;
    assert WantedOf(session, peerset.peers, ms)[i] in WantedOf(session, peerset.peers, ms);
  }

  /** The messages that the room has polled since it began Phase 1. */
  ghost function Polled(s: RoomState): Stream
    requires s.past <= |s.arrived| - |s.rx|
  {
    s.arrived[s.past..|s.arrived| - |s.rx|]
  }

  lemma PolledIsSeen(s: RoomState)
    requires ArrivalsOk(s)
    ensures s.past <= |s.arrived| - |s.rx| && Polled(s) == Seen(s.stage)
  {
    assert s.arrived[s.past..][..|Seen(s.stage)|] == Seen(s.stage);
  }

  /**
    In every run, each message that the execution has received, or that waits for it, is a computation
    message of its session from a member of its peer set that arrived since the room began Phase 1; it
    is unchanged but for its index, which is its sender's position in the peer set.
  */
  lemma OnlyWantedDelivered(read: StartReader, actions: seq<Action>, m: IncomingRequest)
    requires Exec(read, actions).stage.Forwarding?
    requires var g := Exec(read, actions).stage; |g.peerset.peers| <= 0x1_0000 && m in g.received + g.channel
    ensures var s := Exec(read, actions);
            s.past <= |s.arrived| - |s.rx| && Delivered(s.stage.session, s.stage.peerset.peers, Polled(s), m)
  {
    hide Exec, Matching, Sent, Tried, FirstOf, Candidates, Delivered;
    RunOk(read, actions);
    var s := Exec(read, actions);
    var g := s.stage;
    PolledIsSeen(s);
    SentAreTried(g.attempts);
    TriedMatching(g);
    SeenMatching(g);
    hide StageOk, ArrivalsOk, Late, Seen, Polled;
    var ps := g.peerset;
    assert m in Tried(g.attempts) + Matching(g.session, ps, g.buffered);
    assert m in Matching(g.session, ps, Seen(g));
    MatchingDelivered(g.session, ps, Seen(g), m);
  }

  /**
    If every forwarding found room and no wanted message came after the first 1024 early ones, then what
    the execution has received and what waits for it are, one by one and in order, the wanted messages
    that were polled, except for those that the proxy still holds.
  */
  lemma AllWantedDelivered(read: StartReader, actions: seq<Action>)
    requires Exec(read, actions).stage.Forwarding?
    requires var g := Exec(read, actions).stage;
             && |g.peerset.peers| <= 0x1_0000 && RoomThroughout(g.attempts)
             && forall m :: m in Late(g) ==> !Wanted(g.session, g.peerset.peers, m)
    ensures var s := Exec(read, actions);
            var g := s.stage;
            && s.past <= |s.arrived| - |s.rx|
            && var peers := g.peerset.peers;
               var wanted, kept := WantedOf(g.session, peers, Polled(s)), WantedOf(g.session, peers, g.buffered);
               && |kept| <= |wanted|
               && AllStamped(peers, wanted[..|wanted| - |kept|], g.received + g.channel)
  {
    hide Exec, Matching, Late, RoomThroughout, Stamped, Wanted;
    var s := Exec(read, actions);
    var g := s.stage;
    NothingLate(g.session, g.peerset, Late(g));
    SessionStream(read, actions);
    MatchingIsStamped(g.session, g.peerset, Polled(s));
    MatchingIsStamped(g.session, g.peerset, g.buffered);
    hide WantedOf;
    var out := g.received + g.channel;
    assert out + Matching(g.session, g.peerset, g.buffered) == Matching(g.session, g.peerset, Polled(s));
    forall i | 0 <= i < |out| ensures out[i] == Matching(g.session, g.peerset, Polled(s))[i] {
      assert (out + Matching(g.session, g.peerset, g.buffered))[i] == out[i];
    }
  }

  lemma NothingLate(session: Bytes, peerset: Peerset, ms: Stream)
    requires |peerset.peers| <= 0x1_0000 && forall m :: m in ms ==> !Wanted(session, peerset.peers, m)
    ensures Matching(session, peerset, ms) == []
  {
    hide Wanted;
    MatchingIsStamped(session, peerset, ms);
    WantedAre(session, peerset.peers, ms);
    SomeMember(WantedOf(session, peerset.peers, ms));
  }

  lemma SomeMember(ms: Stream)
    ensures ms == [] || exists m :: m in ms
  {
    if ms != [] {
      assert ms[0] in ms;
    }
  }
}
