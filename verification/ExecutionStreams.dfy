/**
  What an execution puts in its channels and on the network, told from its polls alone: what the
  protocol sent and what the network brought.
*/
module ExecutionStreams {
  import opened Basics
  import opened Messages
  import opened Execution
  import opened EchoOrder
  import opened EchoChannel

  // ---- What the polls brought ----

  /** The bodies that the protocol broadcast, in order. */
  function Bodies(turns: seq<Turn>): seq<Bytes> {
    if turns == [] then []
    else
      var out := turns[|turns| - 1].out;
      Bodies(turns[..|turns| - 1]) + if out.Some? && out.value.to == None then [out.value.body] else []
  }

  /** The messages that the protocol sent to one party, in order. */
  function Letters(turns: seq<Turn>): seq<(nat, Bytes)> {
    if turns == [] then []
    else
      var out := turns[|turns| - 1].out;
      Letters(turns[..|turns| - 1])
      + if out.Some? && out.value.to.Some? then [(out.value.to.value, out.value.body)] else []
  }

  /** The poll brings a computation message of the session, broadcast or not. */
  predicate Brings(t: Turn, sessionId: Bytes, isBroadcast: bool) {
    && t.inc.Some? && t.inc.value.context.sessionId == sessionId && t.inc.value.context.messageType == Computation
    && t.inc.value.isBroadcast == isBroadcast
  }

  /** Those messages, in order. */
  function Taken(turns: seq<Turn>, sessionId: Bytes, isBroadcast: bool): seq<IncomingRequest> {
    if turns == [] then []
    else
      var t := turns[|turns| - 1];
      Taken(turns[..|turns| - 1], sessionId, isBroadcast)
      + if Brings(t, sessionId, isBroadcast) then [t.inc.value] else []
  }

  function ArrivalOf(m: IncomingRequest): Arrival {
    Arrival(m.peerIndex + 1, m.context.messageId, m.payload)
  }

  function Arrivals(ms: seq<IncomingRequest>): seq<Arrival> {
    seq(|ms|, i requires 0 <= i < |ms| => ArrivalOf(ms[i]))
  }

  // ---- What was put in the channels ----

  function Filter<T>(keep: T -> bool, xs: seq<T>): seq<T> {
    if xs == [] then [] else (if keep(xs[0]) then [xs[0]] else []) + Filter(keep, xs[1..])
  }

  lemma {:induction false} FilterAppend<T>(keep: T -> bool, a: seq<T>, b: seq<T>)
    ensures Filter(keep, a + b) == Filter(keep, a) + Filter(keep, b)
  {
    if a == [] {
      assert a + b == b;
    } else {
      assert (a + b)[0] == a[0] && (a + b)[1..] == a[1..] + b;
      FilterAppend(keep, a[1..], b);
      Regroup(if keep(a[0]) then [a[0]] else [], Filter(keep, a[1..]), Filter(keep, b));
    }
  }

  lemma {:induction false} FilterAll<T>(keep: T -> bool, xs: seq<T>)
    requires forall i :: 0 <= i < |xs| ==> keep(xs[i])
    ensures Filter(keep, xs) == xs
  {
    if xs != [] {
      FilterAll(keep, xs[1..]);
    }
  }

  lemma {:induction false} FilterNone<T>(keep: T -> bool, xs: seq<T>)
    requires forall i :: 0 <= i < |xs| ==> !keep(xs[i])
    ensures Filter(keep, xs) == []
  {
    if xs != [] {
      FilterNone(keep, xs[1..]);
    }
  }

  predicate IsOwn(e: EchoMessage) {
    e.outgoing
  }

  predicate IsHeard(e: EchoMessage) {
    !e.outgoing
  }

  predicate ToAll(m: ProtocolMessage) {
    m.to == None
  }

  predicate ToOne(m: ProtocolMessage) {
    m.to.Some?
  }

  // ---- Outgoing ----

  /** Broadcast k went out under number k, to the network and to the gadget, with the same body. */
  ghost predicate SentOut(s: State, bodies: seq<Bytes>, self: nat) {
    var own := Filter(IsOwn, s.echo);
    && s.nextOut == |s.multicasts| == |own| == |bodies|
    && (forall k :: 0 <= k < |bodies| ==> s.multicasts[k] == (k, bodies[k]))
    && (forall k :: 0 <= k < |bodies| ==>
          own[k].id == k && own[k].sender == self && own[k].payload == bodies[k] && own[k].outgoing)
  }

  lemma EmitSends(s: State, out: ProtocolOutput, bodies: seq<Bytes>, self: nat)
    requires SentOut(s, bodies, self)
    ensures SentOut(Emit(s, out, self), bodies + if out.to == None then [out.body] else [], self)
  {
    var s' := Emit(s, out, self);
    if out.to == None {
      var e := s'.echo[|s.echo|];
      assert s'.echo == s.echo + [e];
      FilterAppend(IsOwn, s.echo, [e]);
      assert Filter(IsOwn, [e]) == [e];
    }
  }

  /** Forwarding blocks adds nothing of the party's own. */
  lemma {:induction false} ForwardHeard(x: Inbox, n: nat, self: nat)
    requires Session(n, self)
    requires forall i :: 0 <= i < |x.delivered| ==> !x.delivered[i].outgoing
    ensures forall i :: 0 <= i < |Forward(x, n, self).delivered| ==> !Forward(x, n, self).delivered[i].outgoing
    decreases |x.pending|
  {
    if Complete(x.pending, x.next, n, self) {
      WithoutShrinks(x.pending, x.next, n, self);
      ForwardHeard(HandOut(x, n, self), n, self);
    }
  }

  // ---- Incoming ----

  /** The blocks handed out went to the gadget. */
  ghost predicate HeardAll(s: State) {
    var d := s.inbox.delivered;
    (forall i :: 0 <= i < |d| ==> !d[i].outgoing) && Filter(IsHeard, s.echo) == d
  }

  /** They went to the protocol, as broadcasts of their senders. */
  ghost predicate ToldAll(s: State) {
    var d, p := s.inbox.delivered, Filter(ToAll, s.toProtocol);
    |p| == |d| && forall i :: 0 <= i < |d| ==> p[i] == ProtocolMessage(d[i].sender, None, d[i].payload)
  }

  /** Direct messages went to the protocol. */
  ghost predicate ToldOne(s: State, directs: seq<IncomingRequest>, self: nat) {
    var q := Filter(ToOne, s.toProtocol);
    && |q| == |directs|
    && forall i :: 0 <= i < |directs| ==>
         q[i] == ProtocolMessage(directs[i].peerIndex + 1, Some(self), directs[i].payload)
  }

  ghost predicate HandedOn(s: State, directs: seq<IncomingRequest>, self: nat) {
    HeardAll(s) && ToldAll(s) && ToldOne(s, directs, self)
  }

  lemma EmitHands(s: State, out: ProtocolOutput, directs: seq<IncomingRequest>, self: nat)
    requires HandedOn(s, directs, self)
    ensures HandedOn(Emit(s, out, self), directs, self)
  {
    var s' := Emit(s, out, self);
    if out.to == None {
      var e := s'.echo[|s.echo|];
      assert s'.echo == s.echo + [e];
      FilterAppend(IsHeard, s.echo, [e]);
      assert Filter(IsHeard, [e]) == [];
    }
  }

  lemma TakeInHands(s: State, m: IncomingRequest, directs: seq<IncomingRequest>, self: nat)
    requires HandedOn(s, directs, self)
    ensures HandedOn(TakeIn(s, m, self), directs + if m.isBroadcast then [] else [m], self)
  {
    var s' := TakeIn(s, m, self);
    if !m.isBroadcast {
      var e := s'.toProtocol[|s.toProtocol|];
      assert s'.toProtocol == s.toProtocol + [e];
      FilterAppend(ToAll, s.toProtocol, [e]);
      FilterAppend(ToOne, s.toProtocol, [e]);
      assert Filter(ToAll, [e]) == [] && Filter(ToOne, [e]) == [e];
    }
  }

  lemma AdvanceHeard(s: State, x: Inbox)
    requires HeardAll(s) && s.inbox.delivered <= x.delivered
    requires forall i :: 0 <= i < |x.delivered| ==> !x.delivered[i].outgoing
    ensures HeardAll(Advance(s, x))
  {
    var newly := x.delivered[|s.inbox.delivered|..];
    assert Advance(s, x).echo == s.echo + newly;
    FilterAppend(IsHeard, s.echo, newly);
    FilterAll(IsHeard, newly);
    assert x.delivered == s.inbox.delivered + newly;
  }

  /** What advancing gives the protocol. */
  lemma AdvanceTells(s: State, x: Inbox) returns (more: seq<ProtocolMessage>)
    requires s.inbox.delivered <= x.delivered
    ensures Advance(s, x).toProtocol == s.toProtocol + more && |more| == |x.delivered| - |s.inbox.delivered|
    ensures forall i :: 0 <= i < |more| ==>
              var e := x.delivered[|s.inbox.delivered| + i]; more[i] == ProtocolMessage(e.sender, None, e.payload)
  {
    more := Advance(s, x).toProtocol[|s.toProtocol|..];
  }

  lemma AdvanceTold(s: State, x: Inbox, directs: seq<IncomingRequest>, self: nat)
    requires ToldAll(s) && ToldOne(s, directs, self) && s.inbox.delivered <= x.delivered
    ensures ToldAll(Advance(s, x)) && ToldOne(Advance(s, x), directs, self)
  {
    AdvanceToldAll(s, x);
    AdvanceToldOne(s, x, directs, self);
  }

  lemma AdvanceToldAll(s: State, x: Inbox)
    requires ToldAll(s) && s.inbox.delivered <= x.delivered
    ensures ToldAll(Advance(s, x))
  {
    hide Filter;
    var more := AdvanceTells(s, x);
    FilterAppend(ToAll, s.toProtocol, more);
    FilterAll(ToAll, more);
  }

  lemma AdvanceToldOne(s: State, x: Inbox, directs: seq<IncomingRequest>, self: nat)
    requires ToldOne(s, directs, self) && s.inbox.delivered <= x.delivered
    ensures ToldOne(Advance(s, x), directs, self)
  {
    hide Filter;
    var more := AdvanceTells(s, x);
    FilterAppend(ToOne, s.toProtocol, more);
    FilterNone(ToOne, more);
    assert Filter(ToOne, s.toProtocol) + [] == Filter(ToOne, s.toProtocol);
  }

  lemma AdvanceSends(s: State, x: Inbox, bodies: seq<Bytes>, self: nat)
    requires SentOut(s, bodies, self) && s.inbox.delivered <= x.delivered
    requires forall i :: 0 <= i < |x.delivered| ==> !x.delivered[i].outgoing
    ensures SentOut(Advance(s, x), bodies, self)
  {
    var newly := x.delivered[|s.inbox.delivered|..];
    assert Advance(s, x).echo == s.echo + newly;
    FilterAppend(IsOwn, s.echo, newly);
    FilterNone(IsOwn, newly);
    assert Filter(IsOwn, s.echo) + [] == Filter(IsOwn, s.echo);
  }

  lemma FlushKeeps(s: State, bodies: seq<Bytes>, directs: seq<IncomingRequest>, n: nat, self: nat)
    requires Session(n, self) && SentOut(s, bodies, self) && HandedOn(s, directs, self)
    ensures SentOut(Flush(s, n, self), bodies, self) && HandedOn(Flush(s, n, self), directs, self)
    ensures Flush(s, n, self).unicasts == s.unicasts
  {
    ForwardAppends(s.inbox, n, self);
    ForwardHeard(s.inbox, n, self);
    AdvanceSends(s, Forward(s.inbox, n, self), bodies, self);
    AdvanceHeard(s, Forward(s.inbox, n, self));
    AdvanceTold(s, Forward(s.inbox, n, self), directs, self);
    hide SentOut, HeardAll, ToldAll, ToldOne, Forward;
  }

  lemma {:induction false} Streams(turns: seq<Turn>, sessionId: Bytes, n: nat, self: nat)
    requires Session(n, self)
    ensures var s := PollAll(turns, sessionId, n, self);
            && SentOut(s, Bodies(turns), self) && s.unicasts == Letters(turns)
            && HandedOn(s, Taken(turns, sessionId, false), self)
  {
    if turns != [] {
      var init, t := turns[..|turns| - 1], turns[|turns| - 1];
      Streams(init, sessionId, n, self);
      var s, bodies, directs := PollAll(init, sessionId, n, self), Bodies(init), Taken(init, sessionId, false);
      hide SentOut, HandedOn, Emit, Flush, TakeIn;
      EmitAll(s, t.out, bodies, directs, self);
      var s1 := if t.out.Some? then Emit(s, t.out.value, self) else s;
      bodies := bodies + if t.out.Some? && t.out.value.to == None then [t.out.value.body] else [];
      if t.inc.None? {
        FlushKeeps(s1, bodies, directs, n, self);
      } else {
        var m := t.inc.value;
        TakeInAll(s1, m, bodies, directs, self);
        FlushKeeps(TakeIn(s1, m, self), bodies, directs + if m.isBroadcast then [] else [m], n, self);
      }
      assert directs + [] == directs;
    }
  }

  lemma EmitAll(s: State, out: Option<ProtocolOutput>, bodies: seq<Bytes>, directs: seq<IncomingRequest>, self: nat)
    requires SentOut(s, bodies, self) && HandedOn(s, directs, self)
    ensures var s1 := if out.Some? then Emit(s, out.value, self) else s;
            && SentOut(s1, bodies + if out.Some? && out.value.to == None then [out.value.body] else [], self)
            && HandedOn(s1, directs, self)
            && s1.unicasts == s.unicasts
               + if out.Some? && out.value.to.Some? then [(out.value.to.value, out.value.body)] else []
  {
    if out.Some? {
      EmitSends(s, out.value, bodies, self);
      EmitHands(s, out.value, directs, self);
    } else {
      assert bodies + [] == bodies;
    }
  }

  lemma TakeInAll(s: State, m: IncomingRequest, bodies: seq<Bytes>, directs: seq<IncomingRequest>, self: nat)
    requires SentOut(s, bodies, self) && HandedOn(s, directs, self)
    ensures SentOut(TakeIn(s, m, self), bodies, self) && TakeIn(s, m, self).unicasts == s.unicasts
    ensures HandedOn(TakeIn(s, m, self), directs + if m.isBroadcast then [] else [m], self)
  {
    TakeInHands(s, m, directs, self);
  }

  /**
    What goes out, whatever the polls: the k-th broadcast of the protocol is sent to the network as
    number k and given to the gadget under the same number, with this party as its sender and the same
    body; and every direct message goes to its party, in order.
  */
  lemma OutgoingStreams(turns: seq<Turn>, sessionId: Bytes, n: nat, self: nat)
    requires Session(n, self)
    ensures var s, bodies := PollAll(turns, sessionId, n, self), Bodies(turns);
            var own := Filter(IsOwn, s.echo);
            && |s.multicasts| == |own| == |bodies| && s.unicasts == Letters(turns)
            && (forall k :: 0 <= k < |bodies| ==> s.multicasts[k] == (k, bodies[k]))
            && (forall k :: 0 <= k < |bodies| ==> own[k] == EchoMessage(k, self, bodies[k], true))
  {
    Streams(turns, sessionId, n, self);
  }

  // ---- The inbox is what arrived ----

  /** What one poll does to the inbox. */
  lemma PollInbox(s: State, t: Turn, sessionId: Bytes, n: nat, self: nat)
    requires Session(n, self) && !Complete(s.inbox.pending, s.inbox.next, n, self)
    ensures Poll(s, t.out, t.inc, sessionId, n, self).inbox
         == if Brings(t, sessionId, true) then Accept(s.inbox, ArrivalOf(t.inc.value), n, self) else s.inbox
  {
    hide Complete;
  }

  lemma ArrivalsMore(ms: seq<IncomingRequest>, m: IncomingRequest)
    ensures Arrivals(ms + [m]) == Arrivals(ms) + [ArrivalOf(m)]
  {
  }

  lemma AcceptOne(arrivals: seq<Arrival>, a: Arrival, n: nat, self: nat)
    requires Session(n, self)
    ensures AcceptAll(arrivals + [a], n, self) == Accept(AcceptAll(arrivals, n, self), a, n, self)
  {
    assert (arrivals + [a])[..|arrivals|] == arrivals;
  }

  lemma {:induction false} InboxIs(turns: seq<Turn>, sessionId: Bytes, n: nat, self: nat)
    requires Session(n, self)
    ensures PollAll(turns, sessionId, n, self).inbox == AcceptAll(Arrivals(Taken(turns, sessionId, true)), n, self)
  {
    if turns != [] {
      var init, t := turns[..|turns| - 1], turns[|turns| - 1];
      InboxIs(init, sessionId, n, self);
      PollAllStops(init, sessionId, n, self);
      var before, after := Taken(init, sessionId, true), Taken(turns, sessionId, true);
      var s, s' := PollAll(init, sessionId, n, self), PollAll(turns, sessionId, n, self);
      hide PollAll, Complete, Accept, AcceptAll, Arrivals, Taken, Brings, ArrivalOf, Poll;
      assert s' == Poll(s, t.out, t.inc, sessionId, n, self) by {
        PollAllLast(turns, sessionId, n, self);
      }
      PollInbox(s, t, sessionId, n, self);
      TakenLast(turns, sessionId, true);
      if Brings(t, sessionId, true) {
        BringsSome(t, sessionId);
        ArrivalsMore(before, t.inc.value);
        AcceptOne(Arrivals(before), ArrivalOf(t.inc.value), n, self);
      }
    }
  }

  lemma BringsSome(t: Turn, sessionId: Bytes)
    requires Brings(t, sessionId, true)
    ensures t.inc.Some?
  {
  }

  lemma PollAllLast(turns: seq<Turn>, sessionId: Bytes, n: nat, self: nat)
    requires Session(n, self) && turns != []
    ensures var t, s := turns[|turns| - 1], PollAll(turns[..|turns| - 1], sessionId, n, self);
            PollAll(turns, sessionId, n, self) == Poll(s, t.out, t.inc, sessionId, n, self)
  {
    hide Poll;
  }

  lemma TakenLast(turns: seq<Turn>, sessionId: Bytes, isBroadcast: bool)
    requires turns != []
    ensures var t, before := turns[|turns| - 1], Taken(turns[..|turns| - 1], sessionId, isBroadcast);
            && (Brings(t, sessionId, isBroadcast) ==> t.inc.Some?)
            && Taken(turns, sessionId, isBroadcast)
               == if Brings(t, sessionId, isBroadcast) then before + [t.inc.value] else before
  {
  }

  // ---- Where a message of a block is ----

  /** Position of the j-th message of block b. */
  function Slot(n: nat, b: nat, j: nat): nat
    requires n >= 1
  {
    b * (n - 1) + j
  }

  lemma AtMost(a: nat, b: nat, c: nat)
    requires a <= b
    ensures a * c <= b * c
  {
    Distribute(a, b - a, c);
  }

  lemma SlotBounds(n: nat, b: nat, j: nat, k: nat)
    requires n >= 1 && b < k && j < n - 1
    ensures Slot(n, b, j) < k * (n - 1) && (b < k - 1 ==> Slot(n, b, j) < (k - 1) * (n - 1))
  {
    Distribute(b, 1, n - 1);
    AtMost(b + 1, k, n - 1);
    if b < k - 1 {
      AtMost(b + 1, k - 1, n - 1);
    }
  }

  lemma {:induction false} BlocksAt(m: Pending, k: nat, n: nat, self: nat, b: nat, j: nat)
    requires Session(n, self) && b < k && j < n - 1
    ensures |Remotes(n, self)| == n - 1 && |Blocks(m, k, n, self)| == k * (n - 1)
    ensures Slot(n, b, j) < |Blocks(m, k, n, self)|
    ensures var e := Blocks(m, k, n, self)[Slot(n, b, j)];
            e.id == b && e.sender == Remotes(n, self)[j] && e.payload == BodyOf(m, e.sender, b)
  {
    RemotesAre(n, self);
    hide Remotes;
    BlocksLength(m, k, n, self);
    BlocksLength(m, k - 1, n, self);
    SlotBounds(n, b, j, k);
    if b < k - 1 {
      BlocksAt(m, k - 1, n, self, b, j);
    }
  }

  lemma {:induction false} BlocksLength(m: Pending, k: nat, n: nat, self: nat)
    requires Session(n, self)
    ensures |Blocks(m, k, n, self)| == k * (n - 1)
  {
    RemotesAre(n, self);
    hide Remotes;
    if k > 0 {
      BlocksLength(m, k - 1, n, self);
      Distribute(k - 1, 1, n - 1);
    }
  }

  /** The blocks below k are complete among the arrivals, and block k is not. */
  ghost predicate LeadingRounds(arrivals: seq<Arrival>, k: nat, n: nat, self: nat) {
    && (forall b: nat, p: nat :: b < k && Remote(n, self, p) ==> HasArrived(arrivals, p, b))
    && exists p: nat :: Remote(n, self, p) && !HasArrived(arrivals, p, k)
  }

  ghost predicate HasArrived(arrivals: seq<Arrival>, p: nat, b: nat) {
    exists payload :: Arrival(p, b, payload) in arrivals
  }

  lemma ArrivedIff(arrivals: seq<Arrival>, n: nat, self: nat, p: nat, b: nat)
    requires Consistent(arrivals, n, self)
    ensures HasArrived(arrivals, p, b) <==> (p, b) in Arrived(arrivals)
    ensures (p, b) in Arrived(arrivals) ==> Arrival(p, b, Arrived(arrivals)[(p, b)]) in arrivals
  {
    var m := Arrived(arrivals);
    if (p, b) in m {
      ArrivedValue(arrivals, n, self, Arrival(p, b, m[(p, b)]));
    }
    if HasArrived(arrivals, p, b) {
      var payload :| Arrival(p, b, payload) in arrivals;
      ArrivedValue(arrivals, n, self, Arrival(p, b, payload));
    }
  }

  /**
    What comes in, for any polls whose broadcasts are from remotes and agree where they repeat.  K being
    the number of leading complete rounds among them, the broadcasts given to the protocol, and the
    messages given to the gadget, are K blocks, the j-th message of block b being what the j-th remote
    broadcast as number b.  The direct messages given to the protocol are those received, in order,
    with their senders' numbers.
  */
  lemma IncomingStreams(turns: seq<Turn>, sessionId: Bytes, n: nat, self: nat)
    requires Session(n, self) && Consistent(Arrivals(Taken(turns, sessionId, true)), n, self)
    ensures var s, arrivals := PollAll(turns, sessionId, n, self), Arrivals(Taken(turns, sessionId, true));
            var p, heard, k := Filter(ToAll, s.toProtocol), Filter(IsHeard, s.echo), s.inbox.next;
            && LeadingRounds(arrivals, k, n, self) && |p| == |heard| == k * (n - 1) && |Remotes(n, self)| == n - 1
            && forall b: nat, j: nat :: b < k && j < n - 1 ==>
                 && Slot(n, b, j) < |p| && p[Slot(n, b, j)].to == None && !heard[Slot(n, b, j)].outgoing
                 && p[Slot(n, b, j)].from == heard[Slot(n, b, j)].sender == Remotes(n, self)[j]
                 && heard[Slot(n, b, j)].id == b && p[Slot(n, b, j)].payload == heard[Slot(n, b, j)].payload
                 && Arrival(Remotes(n, self)[j], b, p[Slot(n, b, j)].payload) in arrivals
    ensures var q := Filter(ToOne, PollAll(turns, sessionId, n, self).toProtocol);
            var directs := Taken(turns, sessionId, false);
            && |q| == |directs|
            && forall i :: 0 <= i < |directs| ==>
                 q[i] == ProtocolMessage(directs[i].peerIndex + 1, Some(self), directs[i].payload)
  {
    Streams(turns, sessionId, n, self);
    InboxIs(turns, sessionId, n, self);
    hide PollAll, AcceptAll, Taken, Arrivals;
    var s, arrivals := PollAll(turns, sessionId, n, self), Arrivals(Taken(turns, sessionId, true));
    DeliveryConfluence(arrivals, n, self);
    RemotesAre(n, self);
    BlocksLength(Arrived(arrivals), s.inbox.next, n, self);
    assert |s.inbox.delivered| == s.inbox.next * (n - 1);
    LeadingIs(arrivals, s.inbox, n, self);
    hide Remotes, Blocks, Consistent, LeadingRounds, Slot, UpToDate, SentOut;
    forall b: nat, j: nat | b < s.inbox.next && j < n - 1
      ensures Slot(n, b, j) < |s.inbox.delivered|
      ensures var e := s.inbox.delivered[Slot(n, b, j)];
              e.id == b && e.sender == Remotes(n, self)[j] && Arrival(e.sender, b, e.payload) in arrivals
    {
      DeliveredAt(arrivals, s.inbox, n, self, b, j);
    }
  }

  lemma DeliveredAt(arrivals: seq<Arrival>, x: Inbox, n: nat, self: nat, b: nat, j: nat)
    requires Session(n, self) && Consistent(arrivals, n, self) && UpToDate(x, Arrived(arrivals), n, self)
    requires b < x.next && j < n - 1
    ensures |Remotes(n, self)| == n - 1 && Slot(n, b, j) < |x.delivered|
    ensures var e := x.delivered[Slot(n, b, j)];
            e.id == b && e.sender == Remotes(n, self)[j] && Arrival(e.sender, b, e.payload) in arrivals
  {
    RemotesAre(n, self);
    hide Remotes, Blocks, Consistent, Arrived, Slot;
    BlocksAt(Arrived(arrivals), x.next, n, self, b, j);
    assert Remotes(n, self)[j] in Remotes(n, self) && Complete(Arrived(arrivals), b, n, self);
    ArrivedIff(arrivals, n, self, Remotes(n, self)[j], b);
  }

  lemma LeadingIs(arrivals: seq<Arrival>, x: Inbox, n: nat, self: nat)
    requires Consistent(arrivals, n, self) && UpToDate(x, Arrived(arrivals), n, self)
    ensures LeadingRounds(arrivals, x.next, n, self)
  {
    forall b: nat, p: nat | b < x.next && Remote(n, self, p) ensures HasArrived(arrivals, p, b) {
      assert Complete(Arrived(arrivals), b, n, self);
      ArrivedIff(arrivals, n, self, p, b);
    }
    var p: nat :| Remote(n, self, p) && (p, x.next) !in Arrived(arrivals);
    ArrivedIff(arrivals, n, self, p, x.next);
  }
}
