/** How a session comes about in a room, and when its channel has room, in every run. */
module PipelineOrigin {
  import opened Basics
  import opened Messages
  import opened Peers
  import opened Pipeline
  import opened PipelineOrder
  import opened PipelineFilter

  predicate Coordinates(m: IncomingRequest, session: Bytes) {
    m.context.messageType == Coordination && m.context.sessionId == session
  }

  /** No invitation. */
  predicate Uninvited(ms: Stream) {
    forall m :: m in ms ==> m.context.messageType == Computation
  }

  /** Opens with the invitation to the session; nothing after it, up to position k, answers it. */
  predicate Invited(session: Bytes, ms: Stream, k: nat) {
    k <= |ms| && ms != [] && Coordinates(ms[0], session) && forall i :: 1 <= i < k ==> !Coordinates(ms[i], session)
  }

  /**
    What was polled in Phase 1 holds no invitation.  What was polled since opens with one.  A session
    that did not begin here began with the first message that answers it, read as its peer set.
  */
  predicate Origin(read: StartReader, g: Stage) {
    match g
    case Waiting(_, seen1) => Uninvited(seen1)
    case Joining(session, _, seen1, seen2) => Uninvited(seen1) && Invited(session, seen2, |seen2|)
    case Negotiating(seen1) => Uninvited(seen1)
    case Forwarding(session, peerset, _, _, _, seen1, seen2, _, _, _, _) =>
      && Uninvited(seen1)
      && (seen2 != [] ==>
           && |seen2| >= 2 && Invited(session, seen2, |seen2| - 1)
           && Coordinates(seen2[|seen2| - 1], session) && read(seen2[|seen2| - 1].payload) == Some(peerset))
  }

  lemma UninvitedMore(ms: Stream, taken: Stream)
    requires Uninvited(ms) && Uninvited(taken)
    ensures Uninvited(ms + taken)
  {
  }

  lemma WaitingOrigin(read: StartReader, s: RoomState, request: bool)
    requires |s.rx| <= |s.arrived| && s.stage.Waiting? && Origin(read, s.stage)
    ensures Origin(read, Step(read, s, Poll(request)).stage)
  {
    hide BufferEarly;
    if s.rx == [] || s.rx[0].context.messageType == Computation {
      assert Uninvited(Taken(s));
      UninvitedMore(s.stage.seen1, Taken(s));
    }
  }

  lemma JoiningOrigin(read: StartReader, s: RoomState, timedOut: bool)
    requires |s.rx| <= |s.arrived| && s.stage.Joining? && Origin(read, s.stage)
    ensures Origin(read, Step(read, s, Poll(timedOut)).stage)
  {
    hide BufferEarly, Uninvited;
    assert Uninvited([]) by {
      NoneUninvited();
    }
    var seen2 := s.stage.seen2 + Taken(s);
    assert seen2[0] == s.stage.seen2[0];
    if s.rx != [] {
      assert Taken(s) == [s.rx[0]];
      assert seen2[..|s.stage.seen2|] == s.stage.seen2 && seen2[|s.stage.seen2|] == s.rx[0];
    }
  }

  lemma NoneUninvited()
    ensures Uninvited([])
  {
  }

  lemma ForwardingOrigin(read: StartReader, s: RoomState, flag: bool)
    requires |s.rx| <= |s.arrived| && s.stage.Forwarding? && Origin(read, s.stage)
    ensures Origin(read, Step(read, s, Poll(flag)).stage)
  {
    hide ForwardOrReject;
  }

  lemma StepOrigin(read: StartReader, s: RoomState, a: Action)
    requires |s.rx| <= |s.arrived| && Origin(read, s.stage)
    ensures Origin(read, Step(read, s, a).stage)
  {
    if a.Poll? {
      match s.stage
      case Waiting(_, _) => WaitingOrigin(read, s, a.flag);
      case Joining(_, _, _, _) => JoiningOrigin(read, s, a.flag);
      case Negotiating(_) =>
      case Forwarding(_, _, _, _, _, _, _, _, _, _, _) => ForwardingOrigin(read, s, a.flag);
    }
  }

  /**
    In every run, a session that a peer proposed goes by the id of an invitation that arrived, and its
    peer set was read from the first later coordination message with that id.
  */
  lemma {:induction false} SessionOrigin(read: StartReader, actions: seq<Action>)
    ensures Origin(read, Exec(read, actions).stage)
  {
    if actions != [] {
      hide Origin, Step;
      SessionOrigin(read, actions[..|actions| - 1]);
      StepOrigin(read, Exec(read, actions[..|actions| - 1]), actions[|actions| - 1]);
    }
  }

  // ---- What is answered with an error ----

  /** Phase 2 answers a coordination message of another session with an error and goes on, timer or not. */
  lemma StrayAnswered(read: StartReader, s: RoomState, flag: bool)
    requires |s.rx| <= |s.arrived| && s.stage.Joining? && s.rx != []
    requires s.rx[0].context.messageType == Coordination && s.rx[0].context.sessionId != s.stage.session
    ensures var g, s' := s.stage, Step(read, s, Poll(flag));
            && s'.stage == Joining(g.session, g.buffered, g.seen1, g.seen2 + [s.rx[0]])
            && s'.rx == s.rx[1..] && s'.rejected == s.rejected + [s.rx[0]] && s'.settled == s.settled
  {
    assert Taken(s) == [s.rx[0]];
  }

  /** What the proxy polls next: what was buffered comes first. */
  function Head(s: RoomState): Option<IncomingRequest> {
    if !s.stage.Forwarding? || s.stage.closed then None
    else if s.stage.buffered != [] then Some(s.stage.buffered[0])
    else if s.rx != [] then Some(s.rx[0])
    else None
  }

  /**
    The proxy answers a message with an error if and only if it is not a computation message of the
    session from a member; and nothing else is answered or taken by that poll.
  */
  lemma UnwantedAnswered(read: StartReader, s: RoomState, flag: bool)
    requires |s.rx| <= |s.arrived| && Head(s).Some?
    ensures var m, g, s' := Head(s).value, s.stage, Step(read, s, Poll(flag));
            var wanted := Wanted(g.session, g.peerset.peers, m);
            && s'.rejected == (if wanted then s.rejected else s.rejected + [m])
            && s'.settled == (if wanted then s.settled + [m] else s.settled)
            && s'.stage.Forwarding? && s'.stage.buffered + s'.rx == (g.buffered + s.rx)[1..]
  {
    var g := s.stage;
    if g.buffered != [] {
      assert g.buffered[1..] + s.rx == (g.buffered + s.rx)[1..];
    } else {
      assert [] + s.rx[1..] == ([] + s.rx)[1..];
    }
  }

  // ---- Room in the channel ----

  /** An attempt finds at most as many messages waiting as there were attempts before it. */
  ghost predicate Crowd(g: Stage) {
    g.Forwarding? ==> forall i :: 0 <= i < |g.attempts| ==> g.attempts[i].waiting <= i
  }

  lemma {:induction false} SentCount(attempts: seq<Attempt>)
    ensures |Sent(attempts)| <= |attempts|
  {
    if attempts != [] {
      SentCount(attempts[..|attempts| - 1]);
    }
  }

  lemma StepCrowd(read: StartReader, s: RoomState, a: Action)
    requires |s.rx| <= |s.arrived| && StageOk(s.stage) && Crowd(s.stage)
    ensures Crowd(Step(read, s, a).stage)
  {
    hide BufferEarly, Indexed, FirstOf, Candidates, Matching, Tried, Sent;
    if s.stage.Forwarding? {
      SentCount(s.stage.attempts);
    }
  }

  lemma {:induction false} RunCrowd(read: StartReader, actions: seq<Action>)
    ensures Crowd(Exec(read, actions).stage)
  {
    if actions != [] {
      hide Crowd, Step, StageOk;
      var init := actions[..|actions| - 1];
      RunCrowd(read, init);
      RunOk(read, init);
      StepCrowd(read, Exec(read, init), actions[|actions| - 1]);
    }
  }

  /** In every run, while at most 1025 messages of a session have come, every forwarding finds room. */
  lemma FewFindRoom(read: StartReader, actions: seq<Action>)
    requires var g := Exec(read, actions).stage; g.Forwarding? && |g.attempts| <= 1025
    ensures RoomThroughout(Exec(read, actions).stage.attempts)
  {
    hide Exec;
    RunCrowd(read, actions);
  }
}
