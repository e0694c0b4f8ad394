/** Runs of the pipeline in which a message of the session is lost, one for each way it can be. */
module PipelineRuns {
  import opened Basics
  import opened Messages
  import opened Peers
  import opened Pipeline
  import opened PipelineOrder

  /** The messages arrive one by one, each polled at once. */
  function Feed(ms: Stream): seq<Action> {
    if ms == [] then [] else Feed(ms[..|ms| - 1]) + [Arrive(ms[|ms| - 1]), Poll(false)]
  }

  lemma FeedOne(read: StartReader, ms: Stream, m: IncomingRequest)
    requires Exec(read, Feed(ms)).rx == []
    ensures var s := Exec(read, Feed(ms));
            Exec(read, Feed(ms + [m])) == Step(read, s.(rx := [m], arrived := s.arrived + [m]), Poll(false))
  {
    hide Step;
    var actions, s := Feed(ms), Exec(read, Feed(ms));
    assert (ms + [m])[..|ms|] == ms;
    var one, two := actions + [Arrive(m)], actions + [Arrive(m), Poll(false)];
    assert Feed(ms + [m]) == two && two[..|two| - 1] == one && one[..|one| - 1] == actions;
    Arrives(read, s, m);
  }

  lemma Arrives(read: StartReader, s: RoomState, m: IncomingRequest)
    requires s.rx == []
    ensures Step(read, s, Arrive(m)) == s.(rx := [m], arrived := s.arrived + [m])
  {
  }

  ghost predicate AllComputations(ms: Stream) {
    forall i :: 0 <= i < |ms| ==> ms[i].context.messageType == Computation
  }

  /** In Phase 1 all of them are seen, and as many as there is room for are kept. */
  lemma {:induction false} FedWaiting(read: StartReader, ms: Stream)
    requires AllComputations(ms)
    ensures var s := Exec(read, Feed(ms)); s.rx == [] && s.stage.Waiting? && s.stage.seen1 == ms
  {
    if ms != [] {
      var init, m := ms[..|ms| - 1], ms[|ms| - 1];
      assert ms == init + [m];
      FedWaiting(read, init);
      FeedOne(read, init, m);
      hide Exec;
    }
  }

  /** An invitation to a session, and the message that starts it with a peer set. */
  ghost predicate Opens(read: StartReader, invitation: IncomingRequest, start: IncomingRequest, peerset: Peerset) {
    && invitation.context.messageType == start.context.messageType == Coordination
    && invitation.context.sessionId == start.context.sessionId && read(start.payload) == Some(peerset)
  }

  lemma FedInvitation(read: StartReader, ms: Stream, invitation: IncomingRequest)
    requires AllComputations(ms) && invitation.context.messageType == Coordination
    ensures var s := Exec(read, Feed(ms + [invitation]));
            && s.rx == [] && s.stage.Joining? && s.stage.session == invitation.context.sessionId
            && s.stage.seen1 == ms && s.stage.seen2 == [invitation]
  {
    FedWaiting(read, ms);
    FeedOne(read, ms, invitation);
    hide Exec, Feed;
  }

  /** A session that has just started, nothing forwarded yet. */
  ghost predicate JustStarted(s: RoomState, session: Bytes, peerset: Peerset, seen1: Stream, seen2: Stream) {
    var g := s.stage;
    && s.rx == [] && g.Forwarding? && g.session == session && g.peerset == peerset
    && g.seen1 == seen1 && g.seen2 == seen2
    && !g.closed && g.live == [] && g.received == [] && g.channel == [] && g.attempts == [] && g.buffered == g.early
  }

  lemma FedStart(read: StartReader, ms: Stream, invitation: IncomingRequest, start: IncomingRequest, peerset: Peerset)
    requires AllComputations(ms) && Opens(read, invitation, start, peerset)
    ensures JustStarted(Exec(read, Feed(ms + [invitation] + [start])), start.context.sessionId, peerset,
                        ms, [invitation] + [start])
  {
    FedInvitation(read, ms, invitation);
    FeedOne(read, ms + [invitation], start);
    hide Exec, Feed;
    var s := Exec(read, Feed(ms + [invitation]));
    StartsAt(read, s, start, peerset);
  }

  lemma StartsAt(read: StartReader, s: RoomState, start: IncomingRequest, peerset: Peerset)
    requires s.stage.Joining? && s.stage.session == start.context.sessionId
    requires start.context.messageType == Coordination && read(start.payload) == Some(peerset)
    requires |s.rx| <= |s.arrived|
    ensures JustStarted(Step(read, s.(rx := [start], arrived := s.arrived + [start]), Poll(false)),
                        s.stage.session, peerset, s.stage.seen1, s.stage.seen2 + [start])
  {
    assert [start][1..] == [];
  }

  lemma {:induction false} ComputationsAll(ms: Stream)
    requires AllComputations(ms)
    ensures Computations(ms) == ms
  {
    if ms != [] {
      ComputationsAll(ms[..|ms| - 1]);
    }
  }

  /**
    Early messages can be crowded out: after 1024 or more computation messages, of whatever sessions,
    have been polled in Phase 1, a message of the session that starts next is rejected, and the
    execution will not get the session's messages as they arrived.
  */
  lemma CrowdedOut(read: StartReader, noise: Stream, m: IncomingRequest, invitation: IncomingRequest,
                   start: IncomingRequest, peerset: Peerset)
    requires |noise| >= MAX_EARLY && AllComputations(noise)
    requires Opens(read, invitation, start, peerset)
    requires Indexed(start.context.sessionId, peerset, m).Some?
    ensures var s := Exec(read, Feed(noise + [m] + [invitation] + [start]));
            var g := s.stage;
            && g.Forwarding? && g.session == start.context.sessionId && g.buffered == noise[..MAX_EARLY]
            && Matching(g.session, g.peerset, Late(g)) != []
            && s.past <= |s.arrived| - |s.rx|
            && g.received + g.channel + Matching(g.session, g.peerset, g.buffered)
               != Matching(g.session, g.peerset, s.arrived[s.past..|s.arrived| - |s.rx|])
  {
    var early := noise + [m];
    assert m.context.messageType == Computation;
    var actions := Feed(early + [invitation] + [start]);
    FedStart(read, early, invitation, start, peerset);
    RunOk(read, actions);
    SessionStream(read, actions);
    hide Exec, Feed, ArrivalsOk, RoomThroughout, Matching, Late, Indexed;
    LateIs(Exec(read, actions).stage, noise, m, invitation, start);
  }

  lemma LateIs(g: Stage, noise: Stream, m: IncomingRequest, invitation: IncomingRequest, start: IncomingRequest)
    requires g.Forwarding? && StageOk(g) && g.buffered == g.early
    requires |noise| >= MAX_EARLY && AllComputations(noise + [m])
    requires g.seen1 == noise + [m] && g.seen2 == [invitation] + [start]
    requires invitation.context.messageType == start.context.messageType == Coordination
    requires Indexed(g.session, g.peerset, m).Some?
    ensures g.buffered == noise[..MAX_EARLY] && Matching(g.session, g.peerset, Late(g)) != []
  {
    ComputationsAll(noise + [m]);
    OnlyCoordination(g.session, invitation, start);
    hide Matching, Sent, Tried, Computations, OfSession, AllComputations;
    assert Candidates(g.session, g.seen1, g.seen2) == noise + [m];
    assert (noise + [m])[..MAX_EARLY] == noise[..MAX_EARLY];
    assert Late(g) == noise[MAX_EARLY..] + [m];
    MatchingMore(g.session, g.peerset, noise[MAX_EARLY..], m);
    MatchingSome(g.session, g.peerset, m);
  }

  lemma MatchingSome(session: Bytes, peerset: Peerset, m: IncomingRequest)
    requires Indexed(session, peerset, m).Some?
    ensures Matching(session, peerset, [m]) != []
  {
  }

  lemma OnlyCoordination(session: Bytes, a: IncomingRequest, b: IncomingRequest)
    requires a.context.messageType == b.context.messageType == Coordination
    ensures OfSession(session, [a] + [b]) == []
  {
    OfSessionMore(session, [], a);
    OfSessionMore(session, [a], b);
    assert [] + [a] == [a];
  }

  ghost predicate AllMatch(session: Bytes, peerset: Peerset, ms: Stream) {
    forall i :: 0 <= i < |ms| ==> Indexed(session, peerset, ms[i]).Some?
  }

  /** k matching messages have come, and the execution has received none. */
  ghost predicate Filling(s: RoomState, session: Bytes, peerset: Peerset, k: nat) {
    var g := s.stage;
    && s.rx == [] && g.Forwarding? && g.session == session && g.peerset == peerset
    && !g.closed && g.buffered == [] && g.received == [] && |g.attempts| == k
    && |g.channel| == (if k <= PROXY_ROOM then k else PROXY_ROOM)
    && (k > PROXY_ROOM ==> g.attempts[k - 1].waiting == PROXY_ROOM)
  }

  lemma OneMoreFills(read: StartReader, s: RoomState, session: Bytes, peerset: Peerset, k: nat, m: IncomingRequest)
    requires |s.rx| <= |s.arrived| && Filling(s, session, peerset, k) && Indexed(session, peerset, m).Some?
    ensures Filling(Step(read, s.(rx := [m], arrived := s.arrived + [m]), Poll(false)), session, peerset, k + 1)
  {
    hide Indexed;
    assert [m][1..] == [];
  }

  /** While the execution receives nothing, the channel fills up, and then messages are dropped. */
  lemma {:induction false} FedForwarding(read: StartReader, invitation: IncomingRequest, start: IncomingRequest,
                                         peerset: Peerset, ms: Stream)
    requires Opens(read, invitation, start, peerset) && AllMatch(start.context.sessionId, peerset, ms)
    ensures Filling(Exec(read, Feed([] + [invitation] + [start] + ms)), start.context.sessionId, peerset, |ms|)
  {
    var before := [] + [invitation] + [start];
    if ms == [] {
      FedStart(read, [], invitation, start, peerset);
      RunOk(read, Feed(before));
      hide Exec, Feed, ArrivalsOk;
      NothingEarly(Exec(read, Feed(before)).stage, invitation, start);
      assert before + [] == before;
    } else {
      var init, m := ms[..|ms| - 1], ms[|ms| - 1];
      FedForwarding(read, invitation, start, peerset, init);
      assert before + ms == before + init + [m];
      FeedOne(read, before + init, m);
      hide Exec, Feed, Indexed, Step;
      OneMoreFills(read, Exec(read, Feed(before + init)), start.context.sessionId, peerset, |init|, m);
    }
  }

  lemma NothingEarly(g: Stage, invitation: IncomingRequest, start: IncomingRequest)
    requires g.Forwarding? && StageOk(g) && g.seen1 == [] && g.seen2 == [invitation] + [start]
    requires invitation.context.messageType == start.context.messageType == Coordination
    ensures g.early == []
  {
    OnlyCoordination(g.session, invitation, start);
    hide Matching, Sent, Tried, OfSession;
  }

  /** A full channel loses messages: of 1026 in a row that nobody receives, the last is dropped. */
  lemma ChannelOverflows(read: StartReader, invitation: IncomingRequest, start: IncomingRequest, peerset: Peerset,
                         ms: Stream)
    requires Opens(read, invitation, start, peerset)
    requires AllMatch(start.context.sessionId, peerset, ms) && |ms| > PROXY_ROOM
    ensures var s := Exec(read, Feed([] + [invitation] + [start] + ms));
            var g := s.stage;
            && g.Forwarding? && !RoomThroughout(g.attempts)
            && s.past <= |s.arrived| - |s.rx|
            && g.received + g.channel + Matching(g.session, g.peerset, g.buffered)
               != Matching(g.session, g.peerset, s.arrived[s.past..|s.arrived| - |s.rx|])
  {
    FedForwarding(read, invitation, start, peerset, ms);
    SessionStream(read, Feed([] + [invitation] + [start] + ms));
    hide Exec, Feed;
    var g := Exec(read, Feed([] + [invitation] + [start] + ms)).stage;
    assert g.attempts[|ms| - 1] in g.attempts;
  }
}
