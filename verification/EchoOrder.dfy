/**
  The order in which the gadget completes rounds.

  The execution feeds the gadget an interleaving of two streams: the incoming blocks, in block
  order and ascending sender order, and this party's own broadcasts, numbered from 0.  Whatever
  the interleaving, the gadget starts rounds 0, 1, 2, ... without a gap, each on a group with
  exactly one message per party, of which exactly one is this party's own.
*/
module EchoOrder {
  import opened Basics
  import opened Messages
  import opened Execution
  import opened Echo

  /** How much of both streams has been received: whole blocks, messages of the next one, own broadcasts. */
  datatype Position = Position(block: nat, offset: nat, own: nat)
  {
    /** Rounds for which everything has been received. */
    function Rounds(): nat {
      if block < own then block else own
    }
  }

  const ORIGIN := Position(0, 0, 0)

  /** e is the next message of one of the two streams. */
  predicate Follows(n: nat, self: nat, pos: Position, e: EchoMessage) {
    if e.outgoing then e.id == pos.own && e.sender == self
    else e.id == pos.block && pos.offset < |Remotes(n, self)| && e.sender == Remotes(n, self)[pos.offset]
  }

  function Next(n: nat, pos: Position, e: EchoMessage): Position {
    if e.outgoing then pos.(own := pos.own + 1)
    else if pos.offset + 1 == n - 1 then pos.(block := pos.block + 1, offset := 0)
    else pos.(offset := pos.offset + 1)
  }

  /** xs is an interleaving of what the two streams bring after pos. */
  predicate Fed(n: nat, self: nat, pos: Position, xs: seq<EchoMessage>)
    decreases xs
  {
    xs == [] || (Follows(n, self, pos, xs[0]) && Fed(n, self, Next(n, pos, xs[0]), xs[1..]))
  }

  function Final(n: nat, pos: Position, xs: seq<EchoMessage>): Position
    decreases xs
  {
    if xs == [] then pos else Final(n, Next(n, pos, xs[0]), xs[1..])
  }

  lemma {:induction false} FedAppend(n: nat, self: nat, pos: Position, xs: seq<EchoMessage>, ys: seq<EchoMessage>)
    ensures Fed(n, self, pos, xs + ys) <==> Fed(n, self, pos, xs) && Fed(n, self, Final(n, pos, xs), ys)
    ensures Final(n, pos, xs + ys) == Final(n, Final(n, pos, xs), ys)
    decreases xs
  {
    if xs == [] {
      assert xs + ys == ys;
    } else {
      assert (xs + ys)[0] == xs[0] && (xs + ys)[1..] == xs[1..] + ys;
      FedAppend(n, self, Next(n, pos, xs[0]), xs[1..], ys);
    }
  }

  // ---- What the gadget holds at a position ----

  function Incoming(n: nat, pos: Position, id: nat): nat
    requires n >= 1
  {
    if id < pos.block then n - 1 else if id == pos.block then pos.offset else 0
  }

  ghost predicate GroupHolds(n: nat, self: nat, g: seq<EchoMessage>, id: nat, ins: nat, own: bool) {
    && ins <= |Remotes(n, self)|
    && |g| == ins + (if own then 1 else 0)
    && Distinct(g)
    && (forall e :: e in g ==> e.id == id)
    && (forall e :: e in g && e.outgoing ==> own && e.sender == self)
    && (forall e :: e in g && !e.outgoing ==> e.sender in Remotes(n, self)[..ins])
    && (own ==> exists e :: e in g && e.outgoing)
  }

  /** The group numbered id is there if it was begun and not started, with what pos says. */
  ghost predicate HoldsAt(n: nat, self: nat, msgs: Groups, pos: Position, done: nat, id: nat)
    requires n >= 1
  {
    && (id in msgs <==> done <= id && (Incoming(n, pos, id) > 0 || id < pos.own))
    && (id in msgs ==> GroupHolds(n, self, msgs[id], id, Incoming(n, pos, id), id < pos.own))
  }

  /** The gadget has received everything up to pos and started the rounds below `done`. */
  ghost predicate Holds(n: nat, self: nat, msgs: Groups, pos: Position, done: nat)
    requires Session(n, self)
  {
    && pos.offset < n - 1
    && done <= pos.Rounds()
    && (forall id: nat :: HoldsAt(n, self, msgs, pos, done, id))
  }

  lemma RemotePrefix(n: nat, self: nat, k: nat)
    requires Session(n, self) && k <= |Remotes(n, self)|
    ensures self !in Remotes(n, self)[..k]
    ensures k < |Remotes(n, self)| ==> Remotes(n, self)[k] !in Remotes(n, self)[..k] && Remotes(n, self)[k] != self
  {
    RemotesAre(n, self);
    PrefixOf(Remotes(n, self), self, k);
  }

  lemma PrefixOf(r: seq<nat>, self: nat, k: nat)
    requires k <= |r| && self !in r
    requires forall i, j :: 0 <= i < j < |r| ==> r[i] < r[j]
    ensures self !in r[..k]
    ensures k < |r| ==> r[k] !in r[..k] && r[k] != self
  {
    assert forall i :: 0 <= i < k ==> r[..k][i] == r[i] && r[i] in r;
    if k < |r| {
      assert r[k] in r;
    }
  }

  lemma PushDistinct(g: seq<EchoMessage>, e: EchoMessage)
    requires Distinct(g) && forall x :: x in g ==> x.sender != e.sender
    ensures Distinct(g + [e])
  {
    assert forall k :: 0 <= k < |g| ==> g[k] in g;
  }

  /** A group takes in the next incoming message. */
  lemma PushIncoming(n: nat, self: nat, g: seq<EchoMessage>, e: EchoMessage, id: nat, ins: nat, own: bool)
    requires Session(n, self) && ins < |Remotes(n, self)|
    requires GroupHolds(n, self, g, id, ins, own)
    requires !e.outgoing && e.id == id && e.sender == Remotes(n, self)[ins]
    ensures GroupHolds(n, self, g + [e], id, ins + 1, own)
  {
    RemotePrefix(n, self, ins);
    var r := Remotes(n, self);
    assert r[..ins + 1] == r[..ins] + [r[ins]];
    assert r[ins] in r[..ins + 1];
    PushDistinct(g, e);
    assert own ==> exists x :: x in g && x.outgoing && x in g + [e];
  }

  /** A group takes in this party's own message. */
  lemma PushOwn(n: nat, self: nat, g: seq<EchoMessage>, e: EchoMessage, id: nat, ins: nat)
    requires Session(n, self) && ins <= |Remotes(n, self)|
    requires GroupHolds(n, self, g, id, ins, false)
    requires e.outgoing && e.id == id && e.sender == self
    ensures GroupHolds(n, self, g + [e], id, ins, true)
  {
    RemotePrefix(n, self, ins);
    PushDistinct(g, e);
    assert e in g + [e];
  }

  lemma ReceiveOwn(n: nat, self: nat, msgs: Groups, pos: Position, done: nat, e: EchoMessage)
    requires Session(n, self) && Holds(n, self, msgs, pos, done) && Follows(n, self, pos, e) && e.outgoing
    ensures Holds(n, self, Receive(msgs, e), Next(n, pos, e), done)
  {
    RemotesAre(n, self);
    assert HoldsAt(n, self, msgs, pos, done, e.id);
    PushOwn(n, self, Held(msgs, e.id), e, e.id, Incoming(n, pos, e.id));
    forall id: nat ensures HoldsAt(n, self, Receive(msgs, e), Next(n, pos, e), done, id) {
      assert HoldsAt(n, self, msgs, pos, done, id);
    }
  }

  lemma ReceiveRemote(n: nat, self: nat, msgs: Groups, pos: Position, done: nat, e: EchoMessage)
    requires Session(n, self) && Holds(n, self, msgs, pos, done) && Follows(n, self, pos, e) && !e.outgoing
    ensures Holds(n, self, Receive(msgs, e), Next(n, pos, e), done)
  {
    RemotesAre(n, self);
    assert HoldsAt(n, self, msgs, pos, done, e.id);
    PushIncoming(n, self, Held(msgs, e.id), e, e.id, pos.offset, e.id < pos.own);
    forall id: nat ensures HoldsAt(n, self, Receive(msgs, e), Next(n, pos, e), done, id) {
      assert HoldsAt(n, self, msgs, pos, done, id);
    }
  }

  lemma ReceiveHolds(n: nat, self: nat, msgs: Groups, pos: Position, done: nat, e: EchoMessage)
    requires Session(n, self) && Holds(n, self, msgs, pos, done) && Follows(n, self, pos, e)
    ensures Holds(n, self, Receive(msgs, e), Next(n, pos, e), done)
  {
    if e.outgoing {
      ReceiveOwn(n, self, msgs, pos, done, e);
    } else {
      ReceiveRemote(n, self, msgs, pos, done, e);
    }
  }

  /** A group is ready exactly when both streams have passed its round and it was not started. */
  lemma ReadyIff(n: nat, self: nat, msgs: Groups, pos: Position, done: nat, id: nat)
    requires Session(n, self) && Holds(n, self, msgs, pos, done)
    ensures ReadyAt(n, msgs, id) <==> done <= id < pos.Rounds()
    ensures done <= id < pos.Rounds() ==> GroupHolds(n, self, msgs[id], id, n - 1, true)
  {
    RemotesAre(n, self);
    assert HoldsAt(n, self, msgs, pos, done, id);
  }

  lemma StartHolds(n: nat, self: nat, msgs: Groups, pos: Position, done: nat)
    requires Session(n, self) && Holds(n, self, msgs, pos, done) && done < pos.Rounds()
    ensures FirstReady(n, msgs) == Some(done)
    ensures Holds(n, self, msgs - {done}, pos, done + 1)
  {
    forall id: nat ensures ReadyAt(n, msgs, id) <==> done <= id < pos.Rounds() {
      ReadyIff(n, self, msgs, pos, done, id);
    }
    assert ReadyAt(n, msgs, done);
    var rest, done' := msgs - {done}, done + 1;
    forall id: nat ensures HoldsAt(n, self, rest, pos, done', id) {
      assert HoldsAt(n, self, msgs, pos, done, id);
    }
  }

  lemma NothingReady(n: nat, self: nat, msgs: Groups, pos: Position)
    requires Session(n, self) && Holds(n, self, msgs, pos, pos.Rounds())
    ensures FirstReady(n, msgs) == None
  {
    if FirstReady(n, msgs).Some? {
      ReadyIff(n, self, msgs, pos, pos.Rounds(), FirstReady(n, msgs).value);
    }
  }

  // ---- Full groups ----

  /** One message of every party, in ascending order, and only this party's own is outgoing. */
  ghost predicate OneEach(n: nat, self: nat, id: nat, v: seq<EchoMessage>) {
    && |v| == n
    && (forall k :: 0 <= k < n ==> v[k].sender == k + 1 && v[k].id == id)
    && (forall k :: 0 <= k < n ==> (v[k].outgoing <==> k + 1 == self))
  }

  lemma {:induction false} StrictlyAscendingFills(v: seq<EchoMessage>, n: nat, k: nat)
    requires Sorted(v) && Distinct(v) && |v| == n && k < n
    requires forall i :: 0 <= i < n ==> 1 <= v[i].sender <= n
    ensures k + 1 <= v[k].sender <= k + 1
  {
    LowerBound(v, k);
    UpperBound(v, n, k);
  }

  lemma {:induction false} LowerBound(v: seq<EchoMessage>, k: nat)
    requires Sorted(v) && Distinct(v) && k < |v|
    requires forall i :: 0 <= i < |v| ==> 1 <= v[i].sender
    ensures k + 1 <= v[k].sender
  {
    if k > 0 {
      LowerBound(v, k - 1);
      assert v[k - 1].sender != v[k].sender;
    }
  }

  lemma {:induction false} UpperBound(v: seq<EchoMessage>, n: nat, k: nat)
    requires Sorted(v) && Distinct(v) && |v| == n && k < n
    requires forall i :: 0 <= i < n ==> v[i].sender <= n
    ensures v[k].sender <= k + 1
    decreases n - k
  {
    if k + 1 < n {
      UpperBound(v, n, k + 1);
      assert v[k].sender != v[k + 1].sender;
    }
  }

  /** A group with all incoming messages and the own one is, once sorted, one message per party. */
  lemma FullGroup(n: nat, self: nat, g: seq<EchoMessage>, id: nat)
    requires Session(n, self) && GroupHolds(n, self, g, id, n - 1, true)
    ensures OneEach(n, self, id, SortBySender(g))
  {
    RemotesAre(n, self);
    SortSorts(g);
    var v := SortBySender(g);
    assert Remotes(n, self)[..n - 1] == Remotes(n, self);
    forall k | 0 <= k < n
      ensures v[k] in g && 1 <= v[k].sender <= n && (v[k].outgoing <==> v[k].sender == self)
    {
      assert v[k] in v;
      assert !v[k].outgoing ==> Remote(n, self, v[k].sender);
    }
    forall k | 0 <= k < n ensures v[k].sender == k + 1 {
      StrictlyAscendingFills(v, n, k);
    }
  }

  // ---- The run ----

  /** The confirmed groups are rounds done, done+1, ... and each has one message per party. */
  ghost predicate InSequence(n: nat, self: nat, groups: seq<Group>, done: nat) {
    forall k :: 0 <= k < |groups| ==>
      groups[k].id == done + k && OneEach(n, self, done + k, SortBySender(groups[k].messages))
  }

  lemma InSequenceCons(n: nat, self: nat, g: Group, rest: seq<Group>, done: nat)
    requires g.id == done && OneEach(n, self, done, SortBySender(g.messages))
    requires InSequence(n, self, rest, done + 1)
    ensures InSequence(n, self, [g] + rest, done)
  {
    forall k | 0 <= k < |[g] + rest|
      ensures ([g] + rest)[k].id == done + k && OneEach(n, self, done + k, SortBySender(([g] + rest)[k].messages))
    {
      if k > 0 {
        assert ([g] + rest)[k] == rest[k - 1];
      }
    }
  }

  /** Both streams ended together, so that no round is left half fed. */
  predicate Balanced(pos: Position) {
    pos.offset == 0 && pos.block == pos.own
  }

  lemma EmptyIffBalanced(n: nat, self: nat, msgs: Groups, pos: Position)
    requires Session(n, self) && Holds(n, self, msgs, pos, pos.Rounds())
    ensures msgs == map[] <==> Balanced(pos)
  {
    assert HoldsAt(n, self, msgs, pos, pos.Rounds(), pos.Rounds());
    if Balanced(pos) {
      forall id: nat ensures id !in msgs {
        assert HoldsAt(n, self, msgs, pos, pos.Rounds(), id);
      }
      assert msgs.Keys == {};
    }
  }

  /** What is promised of a gadget's life, from round `done` to the final position. */
  ghost predicate Orderly(n: nat, self: nat, o: Outcome, done: nat, final: Position) {
    && InSequence(n, self, o.confirmed, done)
    && (o.end.Failed? ==> !o.end.error.DuplicateSender?)
    && (o.end == Closed ==> Balanced(final) && done + |o.confirmed| == final.own)
    && (o.end == Failed(ClosedWithPending) ==> !Balanced(final))
    && (o.end != Closed && o.end != Failed(ClosedWithPending) ==> done + |o.confirmed| < final.Rounds())
  }

  lemma {:induction false} RoundsGrow(n: nat, pos: Position, xs: seq<EchoMessage>)
    ensures pos.Rounds() <= Final(n, pos, xs).Rounds()
    decreases xs
  {
    if xs != [] {
      RoundsGrow(n, Next(n, pos, xs[0]), xs[1..]);
    }
  }

  /** A started round is orderly: its group has one message per party, so no sender repeats. */
  lemma OrderlyRound(env: Env, self: nat, msgs: Groups, pos: Position, done: nat, rx: seq<EchoMessage>, final: Position)
    requires Session(env.n, self) && Holds(env.n, self, msgs, pos, done) && done < pos.Rounds()
    requires pos.Rounds() <= final.Rounds()
    requires Orderly(env.n, self, Run(env, msgs - {done}, rx), done + 1, final)
    ensures Orderly(env.n, self, Run(env, msgs, rx), done, final)
  {
    var n := env.n;
    StartHolds(n, self, msgs, pos, done);
    ReadyIff(n, self, msgs, pos, done, done);
    FullGroup(n, self, msgs[done], done);
    RoundConfirmedIff(n, msgs[done], env.replies(done), env.hash);
    RemoveShrinks(msgs, done);
    InSequenceCons(n, self, Group(done, msgs[done]), Run(env, msgs - {done}, rx).confirmed, done);
  }

  lemma OrderlyClose(env: Env, self: nat, msgs: Groups, pos: Position)
    requires Session(env.n, self) && Holds(env.n, self, msgs, pos, pos.Rounds())
    ensures Orderly(env.n, self, Run(env, msgs, []), pos.Rounds(), pos)
  {
    NothingReady(env.n, self, msgs, pos);
    EmptyIffBalanced(env.n, self, msgs, pos);
  }

  /**
    Fed by any interleaving, the gadget confirms rounds in order and without a gap, each on one
    message per party.  A repeated sender is impossible, and the input closes cleanly exactly
    when both streams ended together.
  */
  lemma {:induction false} RoundsInOrder(env: Env, self: nat, msgs: Groups, pos: Position, done: nat,
                                         rx: seq<EchoMessage>)
    requires Session(env.n, self) && Holds(env.n, self, msgs, pos, done) && Fed(env.n, self, pos, rx)
    ensures Orderly(env.n, self, Run(env, msgs, rx), done, Final(env.n, pos, rx))
    decreases 2 * |rx| + |msgs|
  {
    var n := env.n;
    if done < pos.Rounds() {
      StartHolds(n, self, msgs, pos, done);
      RemoveShrinks(msgs, done);
      RoundsInOrder(env, self, msgs - {done}, pos, done + 1, rx);
      RoundsGrow(n, pos, rx);
      OrderlyRound(env, self, msgs, pos, done, rx, Final(n, pos, rx));
    } else {
      NothingReady(n, self, msgs, pos);
      if rx != [] {
        ReceiveHolds(n, self, msgs, pos, done, rx[0]);
        ReceiveGrows(msgs, rx[0]);
        RoundsInOrder(env, self, Receive(msgs, rx[0]), Next(n, pos, rx[0]), done, rx[1..]);
        RunReceives(env, msgs, rx);
      } else {
        OrderlyClose(env, self, msgs, pos);
      }
    }
  }

  // ---- The execution feeds the gadget such an interleaving ----

  lemma {:induction false} BlockTailFed(p: Pending, m: nat, n: nat, self: nat, own: nat, k: nat)
    requires Session(n, self) && Complete(p, m, n, self) && k < n - 1
    requires forall s: nat :: s in Remotes(n, self) ==> (s, m) in p
    requires |Remotes(n, self)| == n - 1
    ensures Fed(n, self, Position(m, k, own), Block(p, m, Remotes(n, self))[k..])
    ensures Final(n, Position(m, k, own), Block(p, m, Remotes(n, self))[k..]) == Position(m + 1, 0, own)
    decreases n - k
  {
    var b := Block(p, m, Remotes(n, self));
    assert b[k..][0] == b[k] && b[k..][1..] == b[k + 1..];
    var next := Next(n, Position(m, k, own), b[k]);
    if k + 1 == n - 1 {
      assert b[k + 1..] == [];
      assert Fed(n, self, next, []) && Final(n, next, []) == next;
    } else {
      BlockTailFed(p, m, n, self, own, k + 1);
    }
  }

  lemma {:induction false} ForwardFed(x: Inbox, n: nat, self: nat, own: nat)
    requires Session(n, self) && x.delivered <= Forward(x, n, self).delivered
    ensures Fed(n, self, Position(x.next, 0, own), Forward(x, n, self).delivered[|x.delivered|..])
    ensures Final(n, Position(x.next, 0, own), Forward(x, n, self).delivered[|x.delivered|..])
            == Position(Forward(x, n, self).next, 0, own)
    decreases |x.pending|
  {
    if Complete(x.pending, x.next, n, self) {
      RemotesAre(n, self);
      WithoutShrinks(x.pending, x.next, n, self);
      var x' := HandOut(x, n, self);
      ForwardAppends(x', n, self);
      ForwardFed(x', n, self, own);
      BlockTailFed(x.pending, x.next, n, self, own, 0);
      var block := Block(x.pending, x.next, Remotes(n, self));
      var all := Forward(x, n, self).delivered;
      assert block[0..] == block;
      assert all[|x.delivered|..] == block + all[|x'.delivered|..];
      FedAppend(n, self, Position(x.next, 0, own), block, all[|x'.delivered|..]);
    } else {
      assert Forward(x, n, self).delivered[|x.delivered|..] == [];
    }
  }

  /** The echo stream of an execution is an interleaving that ends where its counters say. */
  ghost predicate Feeds(s: State, n: nat, self: nat) {
    && Fed(n, self, ORIGIN, s.echo)
    && Final(n, ORIGIN, s.echo) == Position(s.inbox.next, 0, s.nextOut)
  }

  lemma EmitFeeds(s: State, out: ProtocolOutput, n: nat, self: nat)
    requires Feeds(s, n, self)
    ensures Feeds(Emit(s, out, self), n, self)
  {
    if out.to.None? {
      var e := EchoMessage(s.nextOut, self, out.body, true);
      var end := Position(s.inbox.next, 0, s.nextOut);
      FedAppend(n, self, ORIGIN, s.echo, [e]);
      assert [e][1..] == [] && Fed(n, self, Next(n, end, e), []);
    }
  }

  lemma FlushFeeds(s: State, n: nat, self: nat)
    requires Session(n, self) && Feeds(s, n, self)
    ensures Feeds(Flush(s, n, self), n, self)
  {
    ForwardAppends(s.inbox, n, self);
    ForwardFed(s.inbox, n, self, s.nextOut);
    FedAppend(n, self, ORIGIN, s.echo, Forward(s.inbox, n, self).delivered[|s.inbox.delivered|..]);
  }

  lemma PollFeeds(s: State, out: Option<ProtocolOutput>, inc: Option<IncomingRequest>, sessionId: Bytes, n: nat,
                  self: nat)
    requires Session(n, self) && Feeds(s, n, self)
    ensures Feeds(Poll(s, out, inc, sessionId, n, self), n, self)
  {
    var s1 := if out.Some? then Emit(s, out.value, self) else s;
    if out.Some? {
      EmitFeeds(s, out.value, n, self);
    }
    FlushFeeds(s1, n, self);
    if inc.Some? {
      FlushFeeds(TakeIn(s1, inc.value, self), n, self);
    }
  }

  /** What one poll takes from the protocol and from the network. */
  datatype Turn = Turn(out: Option<ProtocolOutput>, inc: Option<IncomingRequest>)

  ghost function PollAll(turns: seq<Turn>, sessionId: Bytes, n: nat, self: nat): State
    requires Session(n, self)
  {
    if turns == [] then START
    else
      var t := turns[|turns| - 1];
      Poll(PollAll(turns[..|turns| - 1], sessionId, n, self), t.out, t.inc, sessionId, n, self)
  }

  lemma {:induction false} PollAllFeeds(turns: seq<Turn>, sessionId: Bytes, n: nat, self: nat)
    requires Session(n, self)
    ensures Feeds(PollAll(turns, sessionId, n, self), n, self)
  {
    if turns != [] {
      var t := turns[|turns| - 1];
      PollAllFeeds(turns[..|turns| - 1], sessionId, n, self);
      PollFeeds(PollAll(turns[..|turns| - 1], sessionId, n, self), t.out, t.inc, sessionId, n, self);
    }
  }

  /**
    Any sequence of polls, whatever the protocol sends and the network brings, drives the gadget
    through rounds 0, 1, 2, ... in order; it closes cleanly only if exactly as many blocks came
    in as broadcasts went out, and each of those rounds was confirmed.
  */
  lemma ExecutionDrivesRounds(turns: seq<Turn>, sessionId: Bytes, env: Env, self: nat)
    requires Session(env.n, self)
    ensures var s := PollAll(turns, sessionId, env.n, self);
            Orderly(env.n, self, Run(env, map[], s.echo), 0, Position(s.inbox.next, 0, s.nextOut))
  {
    PollAllFeeds(turns, sessionId, env.n, self);
    RemotesAre(env.n, self);
    RoundsInOrder(env, self, map[], ORIGIN, 0, PollAll(turns, sessionId, env.n, self).echo);
  }
}
