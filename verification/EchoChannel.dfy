/** Room in the channels that the execution writes to: the protocol's, and the echo gadget's. */
module EchoChannel {
  import opened Basics
  import opened Messages
  import opened Execution
  import opened EchoOrder

  // ---- The protocol's channel ----

  lemma {:induction false} ForwardStops(x: Inbox, n: nat, self: nat)
    requires Session(n, self)
    ensures !Complete(Forward(x, n, self).pending, Forward(x, n, self).next, n, self)
    decreases |x.pending|
  {
    if Complete(x.pending, x.next, n, self) {
      WithoutShrinks(x.pending, x.next, n, self);
      ForwardStops(HandOut(x, n, self), n, self);
    }
  }

  /** After any sequence of polls no complete block is left waiting. */
  lemma {:induction false} PollAllStops(turns: seq<Turn>, sessionId: Bytes, n: nat, self: nat)
    requires Session(n, self)
    ensures var x := PollAll(turns, sessionId, n, self).inbox; !Complete(x.pending, x.next, n, self)
  {
    if turns == [] {
      assert Remote(n, self, if self == 1 then 2 else 1);
    } else {
      hide Complete;
      var t, s := turns[|turns| - 1], PollAll(turns[..|turns| - 1], sessionId, n, self);
      PollAllStops(turns[..|turns| - 1], sessionId, n, self);
      var s1 := if t.out.Some? then Emit(s, t.out.value, self) else s;
      ForwardStops(s1.inbox, n, self);
      if t.inc.Some? {
        ForwardStops(TakeIn(s1, t.inc.value, self).inbox, n, self);
      }
    }
  }

  /**
    So the exact condition holds in every reachable state: the next poll puts at most n - 1 messages
    in the protocol's channel if and only if it does not complete two blocks at once.
  */
  lemma EveryPollFitsIff(turns: seq<Turn>, t: Turn, sessionId: Bytes, n: nat, self: nat)
    requires Session(n, self)
    ensures var s, s' := PollAll(turns, sessionId, n, self), PollAll(turns + [t], sessionId, n, self);
            |s'.toProtocol| - |s.toProtocol| <= n - 1 <==> !TwoAtOnce(s, t, sessionId, n, self)
  {
    hide Complete, Poll, CompletesTwo;
    assert (turns + [t])[..|turns|] == turns;
    PollAllStops(turns, sessionId, n, self);
    WholePollFitsIff(PollAll(turns, sessionId, n, self), t.out, t.inc, sessionId, n, self);
  }

  // ---- The gadget's channel ----

  lemma Distribute(a: int, b: int, c: int)
    ensures (a + b) * c == a * c + b * c
  {
  }

  /** How many messages bring the streams from one position to another. */
  lemma {:induction false} FinalCount(n: nat, self: nat, pos: Position, xs: seq<EchoMessage>)
    requires Session(n, self) && pos.offset < n - 1 && Fed(n, self, pos, xs)
    ensures var end := Final(n, pos, xs);
            && end.offset < n - 1
            && |xs| == (end.own - pos.own) + (end.block - pos.block) * (n - 1) + (end.offset - pos.offset)
    decreases xs
  {
    if xs != [] {
      RemotesAre(n, self);
      hide Remotes;
      FinalCount(n, self, Next(n, pos, xs[0]), xs[1..]);
      var end, next := Final(n, pos, xs), Next(n, pos, xs[0]);
      Distribute(end.block - next.block, next.block - pos.block, n - 1);
    }
  }

  /** An execution and its gadget: how many of the messages sent it has taken, and rounds it has confirmed. */
  datatype Pair = Pair(exec: State, taken: nat, confirmed: nat)

  datatype Beat =
    | Polled(turn: Turn)
    | Took
    | Confirmed

  /** The gadget has started a round and waits for replies, so it takes no messages. */
  predicate Waits(n: nat, x: Pair) {
    x.taken <= |x.exec.echo| && Final(n, ORIGIN, x.exec.echo[..x.taken]).Rounds() > x.confirmed
  }

  /** The gadget has had its turn: its channel is empty, or it waits. */
  predicate Attended(n: nat, x: Pair) {
    x.taken == |x.exec.echo| || Waits(n, x)
  }

  /** The poll completes two blocks at once. */
  ghost predicate TwoAtOnce(s: State, t: Turn, sessionId: Bytes, n: nat, self: nat) {
    t.inc.Some? && Relevant(t.inc.value, sessionId) && CompletesTwo(s.inbox, t.inc.value, n, self)
  }

  /**
    The two after a run of beats, if the execution was polled only after the gadget had had its turn
    and no poll completed two blocks at once.
  */
  ghost function Beats(beats: seq<Beat>, sessionId: Bytes, n: nat, self: nat): Option<Pair>
    requires Session(n, self)
  {
    if beats == [] then Some(Pair(START, 0, 0))
    else
      match Beats(beats[..|beats| - 1], sessionId, n, self)
      case None => None
      case Some(x) =>
        match beats[|beats| - 1]
        case Polled(t) =>
          if Attended(n, x) && !TwoAtOnce(x.exec, t, sessionId, n, self)
          then Some(x.(exec := Poll(x.exec, t.out, t.inc, sessionId, n, self))) else None
        case Took => if !Waits(n, x) && x.taken < |x.exec.echo| then Some(x.(taken := x.taken + 1)) else None
        case Confirmed => if Waits(n, x) then Some(x.(confirmed := x.confirmed + 1)) else None
  }

  /** One poll sends the gadget at most one own message more than it gives the protocol, and only appends. */
  lemma PollSends(s: State, t: Turn, sessionId: Bytes, n: nat, self: nat)
    requires Session(n, self)
    ensures var s' := Poll(s, t.out, t.inc, sessionId, n, self);
            && s.echo <= s'.echo && |s'.echo| - |s.echo| <= 1 + |s'.toProtocol| - |s.toProtocol|
            && s.nextOut <= s'.nextOut && s.inbox.next <= s'.inbox.next
  {
    var s1 := if t.out.Some? then Emit(s, t.out.value, self) else s;
    ForwardAppends(s1.inbox, n, self);
    AdvanceCount(s1, Forward(s1.inbox, n, self));
    if t.inc.Some? {
      var s2 := TakeIn(s1, t.inc.value, self);
      ForwardAppends(s2.inbox, n, self);
      AdvanceCount(s2, Forward(s2.inbox, n, self));
    }
  }

  ghost predicate Sound(x: Pair, n: nat, self: nat)
    requires Session(n, self)
  {
    && x.taken <= |x.exec.echo| && Feeds(x.exec, n, self)
    && !Complete(x.exec.inbox.pending, x.exec.inbox.next, n, self)
  }

  lemma PollSound(x: Pair, t: Turn, sessionId: Bytes, n: nat, self: nat)
    requires Session(n, self) && Sound(x, n, self)
    ensures Sound(x.(exec := Poll(x.exec, t.out, t.inc, sessionId, n, self)), n, self)
  {
    hide Complete;
    PollFeeds(x.exec, t.out, t.inc, sessionId, n, self);
    PollSends(x.exec, t, sessionId, n, self);
    var s1 := if t.out.Some? then Emit(x.exec, t.out.value, self) else x.exec;
    ForwardStops(s1.inbox, n, self);
    if t.inc.Some? {
      ForwardStops(TakeIn(s1, t.inc.value, self).inbox, n, self);
    }
  }

  lemma {:induction false} BeatsSound(beats: seq<Beat>, sessionId: Bytes, n: nat, self: nat)
    requires Session(n, self) && Beats(beats, sessionId, n, self).Some?
    ensures Sound(Beats(beats, sessionId, n, self).value, n, self)
  {
    if beats == [] {
      assert Remote(n, self, if self == 1 then 2 else 1);
    } else {
      hide Sound, Poll;
      BeatsSound(beats[..|beats| - 1], sessionId, n, self);
      var x := Beats(beats[..|beats| - 1], sessionId, n, self).value;
      match beats[|beats| - 1]
      case Polled(t) => PollSound(x, t, sessionId, n, self);
      case Took => TookSound(x, n, self);
      case Confirmed => TookSound(x, n, self);
    }
  }

  lemma TookSound(x: Pair, n: nat, self: nat)
    requires Session(n, self) && Sound(x, n, self)
    ensures x.taken < |x.exec.echo| ==> Sound(x.(taken := x.taken + 1), n, self)
    ensures Sound(x.(confirmed := x.confirmed + 1), n, self)
  {
    hide Complete, Feeds;
  }

  /** While the gadget waits it has taken a whole round, so of two rounds at most one is left. */
  lemma WaitingFits(x: Pair, n: nat, self: nat)
    requires Session(n, self) && Sound(x, n, self) && Waits(n, x) && x.exec.nextOut <= 2 && x.exec.inbox.next <= 2
    ensures |x.exec.echo| - x.taken <= n
  {
    var all := x.exec.echo;
    assert all == all[..x.taken] + all[x.taken..];
    FedAppend(n, self, ORIGIN, all[..x.taken], all[x.taken..]);
    FinalCount(n, self, ORIGIN, all);
    FinalCount(n, self, ORIGIN, all[..x.taken]);
    var at, end := Final(n, ORIGIN, all[..x.taken]), Final(n, ORIGIN, all);
    Products(n, at.block, end.block);
  }

  lemma Products(n: nat, a: nat, b: nat)
    requires n >= 1 && a >= 1 && b <= 2
    ensures a * (n - 1) >= n - 1 && b * (n - 1) <= 2 * (n - 1)
  {
  }

  /**
    The gadget's channel, which has room for n + 1 messages, never holds more than n in a session of at
    most two broadcast rounds, such as signing and key generation are.
  */
  lemma {:induction false} GadgetChannelFits(beats: seq<Beat>, sessionId: Bytes, n: nat, self: nat)
    requires Session(n, self) && Beats(beats, sessionId, n, self).Some?
    requires var x := Beats(beats, sessionId, n, self).value; x.exec.nextOut <= 2 && x.exec.inbox.next <= 2
    ensures var x := Beats(beats, sessionId, n, self).value; x.taken <= |x.exec.echo| <= x.taken + n
  {
    if beats != [] {
      hide Poll, Sound, CompletesTwo, Final, Waits;
      var init := beats[..|beats| - 1];
      var x, x' := Beats(init, sessionId, n, self).value, Beats(beats, sessionId, n, self).value;
      BeatsSound(init, sessionId, n, self);
      BeatsSound(beats, sessionId, n, self);
      SoundMeans(x, n, self);
      SoundMeans(x', n, self);
      match beats[|beats| - 1]
      case Polled(t) =>
        PollSends(x.exec, t, sessionId, n, self);
        if x.taken == |x.exec.echo| {
          WholePollFitsIff(x.exec, t.out, t.inc, sessionId, n, self);
        } else {
          StillWaits(x, x', n);
          WaitingFits(x', n, self);
        }
      case Took => GadgetChannelFits(init, sessionId, n, self);
      case Confirmed => GadgetChannelFits(init, sessionId, n, self);
    }
  }

  lemma SoundMeans(x: Pair, n: nat, self: nat)
    requires Session(n, self) && Sound(x, n, self)
    ensures x.taken <= |x.exec.echo| && !Complete(x.exec.inbox.pending, x.exec.inbox.next, n, self)
  {
  }

  lemma StillWaits(x: Pair, x': Pair, n: nat)
    requires Waits(n, x) && x'.taken == x.taken && x'.confirmed == x.confirmed && x.exec.echo <= x'.exec.echo
    ensures Waits(n, x')
  {
    assert x'.exec.echo[..x.taken] == x.exec.echo[..x.taken];
  }
}
