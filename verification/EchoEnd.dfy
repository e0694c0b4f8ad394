/** How a wrapped execution ends, for the streams that an execution produces. */
module EchoEnd {
  import opened Basics
  import opened Messages
  import opened Execution
  import opened Echo
  import opened EchoOrder
  import opened EchoGadget

  /** The round that the gadget stopped in: its group, and what came of it. */
  ghost predicate StoppedIn(env: Env, self: nat, end: GadgetEnd, id: nat, g: seq<EchoMessage>)
    requires env.n >= 1
  {
    && OneEach(env.n, self, id, SortBySender(g))
    && match EndOf(env.n, g, env.replies(id), env.hash)
       case Confirmed => false
       case Rejected(error) => end == Failed(error)
       case Stalled => end == Waiting
  }

  /** Every message of the group was held, or was received. */
  ghost predicate From(g: seq<EchoMessage>, msgs: Groups, id: nat, rx: seq<EchoMessage>) {
    forall e :: e in g ==> e in rx || (id in msgs && e in msgs[id])
  }

  ghost predicate Stopped(env: Env, self: nat, end: GadgetEnd, id: nat, msgs: Groups, rx: seq<EchoMessage>)
    requires env.n >= 1
  {
    exists g :: StoppedIn(env, self, end, id, g) && From(g, msgs, id, rx)
  }

  /**
    The gadget confirms rounds until the first one, `id`, that is not confirmed, or to the end: then it
    ends as that round does, or as its input does.
  */
  ghost predicate Ends(env: Env, self: nat, end: GadgetEnd, id: nat, msgs: Groups, rx: seq<EchoMessage>,
                       final: Position)
    requires env.n >= 1
  {
    && id <= final.Rounds()
    && (id < final.Rounds() ==> Stopped(env, self, end, id, msgs, rx))
    && (id == final.Rounds() ==> end == if Balanced(final) then Closed else Failed(ClosedWithPending))
  }

  lemma StoppedLater(env: Env, self: nat, end: GadgetEnd, id: nat, msgs: Groups, done: nat, rx: seq<EchoMessage>)
    requires env.n >= 1 && Stopped(env, self, end, id, msgs - {done}, rx)
    ensures Stopped(env, self, end, id, msgs, rx)
  {
    hide StoppedIn;
    var g :| StoppedIn(env, self, end, id, g) && From(g, msgs - {done}, id, rx);
    assert From(g, msgs, id, rx);
  }

  lemma StoppedNow(env: Env, self: nat, end: GadgetEnd, id: nat, msgs: Groups, rx: seq<EchoMessage>)
    requires env.n >= 1 && id in msgs && StoppedIn(env, self, end, id, msgs[id])
    ensures Stopped(env, self, end, id, msgs, rx)
  {
    assert From(msgs[id], msgs, id, rx);
  }

  lemma StoppedReceive(env: Env, self: nat, end: GadgetEnd, id: nat, msgs: Groups, rx: seq<EchoMessage>)
    requires env.n >= 1 && rx != [] && Stopped(env, self, end, id, Receive(msgs, rx[0]), rx[1..])
    ensures Stopped(env, self, end, id, msgs, rx)
  {
    hide StoppedIn;
    var g :| StoppedIn(env, self, end, id, g) && From(g, Receive(msgs, rx[0]), id, rx[1..]);
    assert rx == [rx[0]] + rx[1..];
    assert From(g, msgs, id, rx);
  }

  lemma EndsReceive(env: Env, self: nat, end: GadgetEnd, id: nat, msgs: Groups, rx: seq<EchoMessage>, final: Position)
    requires env.n >= 1 && rx != [] && Ends(env, self, end, id, Receive(msgs, rx[0]), rx[1..], final)
    ensures Ends(env, self, end, id, msgs, rx, final)
  {
    hide Stopped, Balanced, Receive;
    if id < final.Rounds() {
      StoppedReceive(env, self, end, id, msgs, rx);
    }
  }

  /** What the gadget does when a group is ready. */
  lemma RunStarts(env: Env, msgs: Groups, rx: seq<EchoMessage>, id: nat)
    requires env.n >= 1 && FirstReady(env.n, msgs) == Some(id)
    ensures var o, rest := Run(env, msgs, rx), Run(env, msgs - {id}, rx);
            match EndOf(env.n, msgs[id], env.replies(id), env.hash)
            case Confirmed => o == Outcome([Group(id, msgs[id])] + rest.confirmed, rest.end)
            case Rejected(error) => o == Outcome([], Failed(error))
            case Stalled => o == Outcome([], Waiting)
  {
    hide EndOf, FirstReady;
  }

  lemma ReadyGroup(n: nat, self: nat, msgs: Groups, pos: Position, done: nat)
    requires Session(n, self) && Holds(n, self, msgs, pos, done) && done < pos.Rounds()
    ensures FirstReady(n, msgs) == Some(done) && done in msgs && OneEach(n, self, done, SortBySender(msgs[done]))
    ensures Holds(n, self, msgs - {done}, pos, done + 1) && |msgs - {done}| == |msgs| - 1
  {
    hide Holds, SortBySender, OneEach;
    StartHolds(n, self, msgs, pos, done);
    ReadyIff(n, self, msgs, pos, done, done);
    FullGroup(n, self, msgs[done], done);
    RemoveShrinks(msgs, done);
  }

  lemma EndsRound(env: Env, self: nat, msgs: Groups, pos: Position, done: nat, rx: seq<EchoMessage>, final: Position)
    requires Session(env.n, self) && Holds(env.n, self, msgs, pos, done) && done < pos.Rounds() <= final.Rounds()
    requires var rest := Run(env, msgs - {done}, rx);
             Ends(env, self, rest.end, done + 1 + |rest.confirmed|, msgs - {done}, rx, final)
    ensures var o := Run(env, msgs, rx); Ends(env, self, o.end, done + |o.confirmed|, msgs, rx, final)
  {
    hide OneEach, SortBySender, Holds, Run, EndOf, FirstReady, Balanced, Stopped;
    ReadyGroup(env.n, self, msgs, pos, done);
    RunStarts(env, msgs, rx, done);
    var o, rest := Run(env, msgs, rx), Run(env, msgs - {done}, rx);
    if EndOf(env.n, msgs[done], env.replies(done), env.hash) == Confirmed {
      if done + |o.confirmed| < final.Rounds() {
        StoppedLater(env, self, o.end, done + |o.confirmed|, msgs, done, rx);
      }
    } else {
      StoppedNow(env, self, o.end, done, msgs, rx);
    }
  }

  lemma EndsClose(env: Env, self: nat, msgs: Groups, pos: Position)
    requires Session(env.n, self) && Holds(env.n, self, msgs, pos, pos.Rounds())
    ensures var o := Run(env, msgs, []); Ends(env, self, o.end, pos.Rounds() + |o.confirmed|, msgs, [], pos)
  {
    NothingReady(env.n, self, msgs, pos);
    EmptyIffBalanced(env.n, self, msgs, pos);
  }

  lemma {:induction false} RunEnds(env: Env, self: nat, msgs: Groups, pos: Position, done: nat, rx: seq<EchoMessage>)
    requires Session(env.n, self) && Holds(env.n, self, msgs, pos, done) && Fed(env.n, self, pos, rx)
    ensures var o := Run(env, msgs, rx); Ends(env, self, o.end, done + |o.confirmed|, msgs, rx, Final(env.n, pos, rx))
    decreases 2 * |rx| + |msgs|
  {
    hide Ends, Holds, Run, FirstReady, Receive, OneEach, SortBySender, Next, Follows;
    var n := env.n;
    if done < pos.Rounds() {
      ReadyGroup(n, self, msgs, pos, done);
      RunEnds(env, self, msgs - {done}, pos, done + 1, rx);
      RoundsGrow(n, pos, rx);
      EndsRound(env, self, msgs, pos, done, rx, Final(n, pos, rx));
    } else if rx != [] {
      WaitsForMore(env, self, msgs, pos, done, rx);
      RunEnds(env, self, Receive(msgs, rx[0]), Next(n, pos, rx[0]), done, rx[1..]);
      var o := Run(env, msgs, rx);
      EndsReceive(env, self, o.end, done + |o.confirmed|, msgs, rx, Final(n, pos, rx));
    } else {
      HoldsRounds(n, self, msgs, pos, done);
      EndsClose(env, self, msgs, pos);
    }
  }

  lemma HoldsRounds(n: nat, self: nat, msgs: Groups, pos: Position, done: nat)
    requires Session(n, self) && Holds(n, self, msgs, pos, done)
    ensures done <= pos.Rounds()
  {
  }

  /** Nothing is ready, so the next message is received. */
  lemma WaitsForMore(env: Env, self: nat, msgs: Groups, pos: Position, done: nat, rx: seq<EchoMessage>)
    requires Session(env.n, self) && Holds(env.n, self, msgs, pos, done) && done >= pos.Rounds()
    requires rx != [] && Follows(env.n, self, pos, rx[0])
    ensures Run(env, msgs, rx) == Run(env, Receive(msgs, rx[0]), rx[1..])
    ensures Holds(env.n, self, Receive(msgs, rx[0]), Next(env.n, pos, rx[0]), done)
    ensures |Receive(msgs, rx[0])| <= |msgs| + 1
  {
    HoldsRounds(env.n, self, msgs, pos, done);
    hide Holds, Receive;
    NothingReady(env.n, self, msgs, pos);
    ReceiveHolds(env.n, self, msgs, pos, done, rx[0]);
    ReceiveGrows(msgs, rx[0]);
    RunReceives(env, msgs, rx);
  }

  // ---- In terms of the replies ----

  /** Reply j is the first of n - 1 that is not the hash h, and e is the error it gives. */
  ghost predicate FirstBad(replies: seq<Reply>, h: Bytes, n: nat, j: nat, e: EchoError) {
    && j < n - 1 <= |replies| && (forall i :: 0 <= i < j ==> replies[i] == Hash(h)) && replies[j] != Hash(h)
    && e == if replies[j].RequestFailure? then EchoFailed else HashMismatch(j)
  }

  lemma {:induction false} CheckFindsFirst(replies: seq<Reply>, h: Bytes, index: nat) returns (j: nat)
    requires CheckReplies(replies, h, index) != Confirmed
    ensures j < |replies| && (forall i :: 0 <= i < j ==> replies[i] == Hash(h)) && replies[j] != Hash(h)
    ensures CheckReplies(replies, h, index)
         == Rejected(if replies[j].RequestFailure? then EchoFailed else HashMismatch(index + j))
  {
    j := 0;
    if replies[0] == Hash(h) {
      var k := CheckFindsFirst(replies[1..], h, index + 1);
      forall i | 0 <= i < k + 1 ensures replies[i] == Hash(h) {
        assert i > 0 ==> replies[i] == replies[1..][i - 1];
      }
      j := k + 1;
    }
  }

  /** A vector that holds what the stream says about one number, by sender. */
  ghost predicate VectorOfRound(echo: seq<EchoMessage>, id: nat, v: seq<Bytes>) {
    forall e :: e in echo && e.id == id ==> 1 <= e.sender <= |v| && v[e.sender - 1] == e.payload
  }

  /** How a round of different senders that is not confirmed ends, by its replies alone. */
  lemma EndMeans(n: nat, g: seq<EchoMessage>, replies: seq<Reply>, hash: Bytes -> Bytes)
    requires n >= 1 && FirstDuplicate(SortBySender(g), {}).None? && EndOf(n, g, replies, hash) != Confirmed
    ensures |replies| < n - 1 ==> EndOf(n, g, replies, hash) == Stalled
    ensures |replies| >= n - 1 ==>
              exists j, e :: FirstBad(replies, GroupHash(g, hash), n, j, e) && EndOf(n, g, replies, hash) == Rejected(e)
  {
    hide SortBySender, GroupHash, FirstDuplicate, CheckReplies;
    if |replies| >= n - 1 {
      var h, seen := GroupHash(g, hash), replies[..n - 1];
      var j := CheckFindsFirst(seen, h, 0);
      var e := if seen[j].RequestFailure? then EchoFailed else HashMismatch(j);
      forall i | 0 <= i < j ensures replies[i] == Hash(h) {
        assert seen[i] == replies[i];
      }
      assert FirstBad(replies, h, n, j, e);
    }
  }

  lemma StoppedMeans(env: Env, self: nat, end: GadgetEnd, id: nat, echo: seq<EchoMessage>, v: seq<Bytes>)
    requires env.n >= 2 && Stopped(env, self, end, id, map[], echo)
    requires |v| == env.n && VectorOfRound(echo, id, v)
    ensures |env.replies(id)| < env.n - 1 ==> end == Waiting
    ensures |env.replies(id)| >= env.n - 1 ==>
              exists j, e :: FirstBad(env.replies(id), env.hash(Concat(v)), env.n, j, e) && end == Failed(e)
  {
    var g :| StoppedIn(env, self, end, id, g) && From(g, map[], id, echo);
    GroupMembers(env.n, self, id, g, echo, v);
    NoDuplicateIffDistinct(SortBySender(g), {});
    GroupHashIs(env.n, self, id, g, v, env.hash);
    EndMeans(env.n, g, env.replies(id), env.hash);
    hide SortBySender, GroupHash, FirstDuplicate, FirstBad, EndOf, VectorOfRound, From;
  }

  lemma GroupMembers(n: nat, self: nat, id: nat, g: seq<EchoMessage>, echo: seq<EchoMessage>, v: seq<Bytes>)
    requires OneEach(n, self, id, SortBySender(g)) && From(g, map[], id, echo) && VectorOfRound(echo, id, v)
    ensures VectorOfGroup(g, v)
  {
    hide SortBySender;
    forall e | e in g ensures 1 <= e.sender <= |v| && v[e.sender - 1] == e.payload {
      assert e in SortBySender(g) && e in echo;
    }
  }

  /** The facts about a run of polls that decide how its wrapped execution ends. */
  ghost predicate Decides(env: Env, s: State, o: Outcome, v: seq<Bytes>)
    requires env.n >= 2
  {
    var id, rounds := |o.confirmed|, Position(s.inbox.next, 0, s.nextOut).Rounds();
    && id <= rounds
    && (id == rounds ==> o.end == if s.inbox.next == s.nextOut then Closed else Failed(ClosedWithPending))
    && (id < rounds && |env.replies(id)| < env.n - 1 ==> o.end == Waiting)
    && (id < rounds && |env.replies(id)| >= env.n - 1 ==>
          exists j, e :: FirstBad(env.replies(id), env.hash(Concat(v)), env.n, j, e) && o.end == Failed(e))
  }

  lemma NothingHeld(n: nat, self: nat)
    requires Session(n, self)
    ensures Holds(n, self, map[], ORIGIN, 0)
  {
    RemotesAre(n, self);
  }

  lemma PollsDecide(turns: seq<Turn>, sessionId: Bytes, env: Env, self: nat, v: seq<Bytes>)
    requires Session(env.n, self) && |v| == env.n
    requires var s := PollAll(turns, sessionId, env.n, self);
             VectorOfRound(s.echo, |Run(env, map[], s.echo).confirmed|, v)
    ensures var s := PollAll(turns, sessionId, env.n, self); Decides(env, s, Run(env, map[], s.echo), v)
  {
    hide PollAll, Run;
    PollAllFeeds(turns, sessionId, env.n, self);
    var s := PollAll(turns, sessionId, env.n, self);
    var o := Run(env, map[], s.echo);
    NothingHeld(env.n, self);
    hide Holds;
    RunEnds(env, self, map[], ORIGIN, 0, s.echo);
    hide Fed, Final;
    hide Stopped, FirstBad, VectorOfRound;
    var id := |o.confirmed|;
    if id < Position(s.inbox.next, 0, s.nextOut).Rounds() {
      StoppedMeans(env, self, o.end, id, s.echo, v);
    }
  }

  /**
    How a wrapped execution ends, in terms of the replies to the party's own broadcasts.  Let id be the
    first round that was not confirmed, v what everyone sent in it, and both streams complete for
    `rounds` rounds.  An error is reported if and only if no failed computation came first, and either
    id is complete and got its n - 1 replies, or the input ended unbalanced; the error then names the
    first reply that differs from the hash of v.  The execution never ends if and only if the
    computation succeeded and id is complete but lacks replies.
  */
  lemma ReportsIff(turns: seq<Turn>, sessionId: Bytes, env: Env, self: nat, v: seq<Bytes>,
                   computationOk: bool, computationFirst: bool)
    requires Session(env.n, self) && |v| == env.n
    requires var s := PollAll(turns, sessionId, env.n, self);
             VectorOfRound(s.echo, |Run(env, map[], s.echo).confirmed|, v)
    ensures var s := PollAll(turns, sessionId, env.n, self);
            var o := Run(env, map[], s.echo);
            var id, rounds := |o.confirmed|, if s.inbox.next < s.nextOut then s.inbox.next else s.nextOut;
            var res := Combine(o.end, computationOk, computationFirst);
            && (res.EchoError? <==>
                  && (computationOk || !computationFirst)
                  && if id < rounds then |env.replies(id)| >= env.n - 1 else s.inbox.next != s.nextOut)
            && (res.EchoError? && id < rounds ==>
                  exists j :: FirstBad(env.replies(id), env.hash(Concat(v)), env.n, j, res.error))
            && (res.EchoError? && id == rounds ==> res.error == ClosedWithPending)
            && (res == Never <==> computationOk && id < rounds && |env.replies(id)| < env.n - 1)
            && (res == Success <==> computationOk && id == rounds && s.inbox.next == s.nextOut)
  {
    PollsDecide(turns, sessionId, env, self, v);
    hide Run, PollAll, VectorOfRound, FirstBad;
  }
}
