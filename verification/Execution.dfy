/**
  The message side of `ProtocolExecution`: broadcast numbering, the session filter, the
  buffer that turns any arrival order into a fixed block order, and the channel bounds.

  Parties are numbered 1..n, as the protocol sees them; `self` is the local party.
*/
module Execution {
  import opened Basics
  import opened Messages

  /** A buffered broadcast is known by its sender and its broadcast number. */
  type Key = (nat, nat)
  type Pending = map<Key, Bytes>

  /** A session has at least two parties and the local one is among them. */
  predicate Session(n: nat, self: nat) {
    n >= 2 && 1 <= self <= n
  }

  predicate Remote(n: nat, self: nat, s: nat) {
    1 <= s <= n && s != self
  }

  ghost predicate FromRemotes(p: Pending, n: nat, self: nat) {
    forall k :: k in p ==> Remote(n, self, k.0)
  }

  /** The remotes among parties 1..k, ascending. */
  function Remotes(k: nat, self: nat): seq<nat> {
    if k == 0 then [] else Remotes(k - 1, self) + if k == self then [] else [k]
  }

  /** The senders among 1..k whose broadcast m is buffered, ascending. */
  function Ready(p: Pending, m: nat, k: nat): seq<nat> {
    if k == 0 then [] else Ready(p, m, k - 1) + if (k, m) in p then [k] else []
  }

  /** Broadcast m of every remote is present. */
  ghost predicate Complete(p: Pending, m: nat, n: nat, self: nat) {
    forall s: nat :: Remote(n, self, s) ==> (s, m) in p
  }

  lemma {:induction false} RemotesAre(k: nat, self: nat)
    ensures forall s: nat :: s in Remotes(k, self) <==> Remote(k, self, s)
    ensures |Remotes(k, self)| == if 1 <= self <= k then k - 1 else k
    ensures forall i, j :: 0 <= i < j < |Remotes(k, self)| ==> Remotes(k, self)[i] < Remotes(k, self)[j]
  {
    if k > 0 {
      RemotesAre(k - 1, self);
      var r := Remotes(k - 1, self);
      assert forall i :: 0 <= i < |r| ==> r[i] in r;
    }
  }

  lemma {:induction false} ReadyUpTo(p: Pending, m: nat, k: nat, n: nat, self: nat)
    requires k <= n && FromRemotes(p, n, self)
    ensures forall s: nat :: s in Ready(p, m, k) <==> 1 <= s <= k && (s, m) in p
    ensures |Ready(p, m, k)| <= |Remotes(k, self)|
    ensures |Ready(p, m, k)| == |Remotes(k, self)| <==> forall s: nat :: Remote(k, self, s) ==> (s, m) in p
    ensures |Ready(p, m, k)| == |Remotes(k, self)| ==> Ready(p, m, k) == Remotes(k, self)
  {
    if k > 0 {
      ReadyUpTo(p, m, k - 1, n, self);
      assert forall s: nat :: Remote(k, self, s) <==> Remote(k - 1, self, s) || (s == k && k != self);
    }
  }

  /** Counting n - 1 buffered senders is the same as having every remote. */
  lemma ReadyIffComplete(p: Pending, m: nat, n: nat, self: nat)
    requires Session(n, self) && FromRemotes(p, n, self)
    ensures |Ready(p, m, n)| == n - 1 <==> Complete(p, m, n, self)
    ensures Complete(p, m, n, self) ==> Ready(p, m, n) == Remotes(n, self)
  {
    ReadyUpTo(p, m, n, n, self);
    RemotesAre(n, self);
  }

  /** The buffered body of broadcast m of sender s. */
  function BodyOf(p: Pending, s: nat, m: nat): Bytes {
    if (s, m) in p then p[(s, m)] else []
  }

  /** Broadcast m of the listed senders, in that order. */
  function Block(p: Pending, m: nat, senders: seq<nat>): seq<EchoMessage> {
    seq(|senders|, k requires 0 <= k < |senders| => EchoMessage(m, senders[k], BodyOf(p, senders[k], m), false))
  }

  /** Blocks 0..k-1, each with all remotes in ascending order. */
  function Blocks(p: Pending, k: nat, n: nat, self: nat): seq<EchoMessage> {
    if k == 0 then [] else Blocks(p, k - 1, n, self) + Block(p, k - 1, Remotes(n, self))
  }

  function Without(p: Pending, m: nat): Pending {
    map k | k in p && k.1 != m :: p[k]
  }

  /** The receive side of the execution: buffer, next block to hand out, blocks handed out. */
  datatype Inbox = Inbox(pending: Pending, next: nat, delivered: seq<EchoMessage>)

  const EMPTY := Inbox(map[], 0, [])

  /** The inbox after its next block has been handed out. */
  function HandOut(x: Inbox, n: nat, self: nat): Inbox {
    Inbox(Without(x.pending, x.next), x.next + 1, x.delivered + Block(x.pending, x.next, Remotes(n, self)))
  }

  /** Hands out complete blocks until one is missing a sender. */
  ghost function Forward(x: Inbox, n: nat, self: nat): Inbox
    requires Session(n, self)
    decreases |x.pending|
  {
    if !Complete(x.pending, x.next, n, self) then x
    else
      WithoutShrinks(x.pending, x.next, n, self);
      Forward(HandOut(x, n, self), n, self)
  }

  /** A forwarding iteration removes at least one entry, so the loop ends: this needs n >= 2. */
  lemma WithoutShrinks(p: Pending, m: nat, n: nat, self: nat)
    requires Session(n, self) && Complete(p, m, n, self)
    ensures |Without(p, m)| < |p|
  {
    var s := if self == 1 then 2 else 1;
    assert Remote(n, self, s) && (s, m) in p;
    assert Without(p, m).Keys <= p.Keys - {(s, m)};
    SubsetCount(Without(p, m).Keys, p.Keys - {(s, m)});
  }

  /** With one party the exit test of the loop is never met, whatever the round number. */
  lemma SinglePartyNeverLeaves(m: nat)
    ensures |Ready(map[], m, 1)| == 1 - 1
  {
    assert Ready(map[], m, 0) == [];
  }

  // ---- Delivery confluence ----

  datatype Arrival = Arrival(sender: nat, id: nat, payload: Bytes)

  /** Everything that has arrived, by sender and number. */
  function Arrived(arrivals: seq<Arrival>): Pending {
    if arrivals == [] then map[]
    else
      var a := arrivals[|arrivals| - 1];
      Arrived(arrivals[..|arrivals| - 1])[(a.sender, a.id) := a.payload]
  }

  /** Arrivals from remotes, where a repeated broadcast carries the same payload. */
  ghost predicate Consistent(arrivals: seq<Arrival>, n: nat, self: nat) {
    && (forall i :: 0 <= i < |arrivals| ==> Remote(n, self, arrivals[i].sender))
    && (forall i, j :: 0 <= i < |arrivals| && 0 <= j < |arrivals|
          && arrivals[i].sender == arrivals[j].sender && arrivals[i].id == arrivals[j].id
          ==> arrivals[i].payload == arrivals[j].payload)
  }

  /** One poll that takes a broadcast from the network. */
  ghost function Accept(x: Inbox, a: Arrival, n: nat, self: nat): Inbox
    requires Session(n, self)
  {
    Forward(x.(pending := x.pending[(a.sender, a.id) := a.payload]), n, self)
  }

  ghost function AcceptAll(arrivals: seq<Arrival>, n: nat, self: nat): Inbox
    requires Session(n, self)
  {
    if arrivals == [] then EMPTY
    else
      Accept(AcceptAll(arrivals[..|arrivals| - 1], n, self), arrivals[|arrivals| - 1], n, self)
  }

  /**
    The inbox agrees with the arrivals m, except perhaps that a complete block still waits.  What
    came again for a block that was handed out stays buffered, and is never looked at.
  */
  ghost predicate Tracks(x: Inbox, m: Pending, n: nat, self: nat) {
    && FromRemotes(m, n, self)
    && (forall k :: k in x.pending ==> k in m && (k.1 >= x.next ==> x.pending[k] == m[k]))
    && (forall k :: k in m && k.1 >= x.next ==> k in x.pending)
    && (forall j :: 0 <= j < x.next ==> Complete(m, j, n, self))
    && x.delivered == Blocks(m, x.next, n, self)
  }

  /** As Tracks, with every complete block handed out. */
  ghost predicate UpToDate(x: Inbox, m: Pending, n: nat, self: nat) {
    Tracks(x, m, n, self) && !Complete(m, x.next, n, self)
  }

  lemma {:induction false} BlocksStable(m: Pending, m': Pending, k: nat, n: nat, self: nat)
    requires forall j :: 0 <= j < k ==> Complete(m, j, n, self)
    requires forall key :: key in m && key.1 < k ==> key in m' && m'[key] == m[key]
    ensures forall j :: 0 <= j < k ==> Complete(m', j, n, self)
    ensures Blocks(m, k, n, self) == Blocks(m', k, n, self)
  {
    if k > 0 {
      BlocksStable(m, m', k - 1, n, self);
      RemotesAre(n, self);
      assert Complete(m, k - 1, n, self) && Complete(m', k - 1, n, self);
      assert Block(m, k - 1, Remotes(n, self)) == Block(m', k - 1, Remotes(n, self));
    }
  }

  lemma HandOutTracks(x: Inbox, m: Pending, n: nat, self: nat)
    requires Tracks(x, m, n, self) && Complete(x.pending, x.next, n, self)
    ensures Tracks(HandOut(x, n, self), m, n, self)
  {
    RemotesAre(n, self);
    assert Complete(m, x.next, n, self);
    hide Remotes;
    assert Block(x.pending, x.next, Remotes(n, self)) == Block(m, x.next, Remotes(n, self));
  }

  /** Forwarding catches up with the arrivals. */
  lemma {:induction false} ForwardCatchesUp(x: Inbox, m: Pending, n: nat, self: nat)
    requires Session(n, self) && Tracks(x, m, n, self)
    ensures UpToDate(Forward(x, n, self), m, n, self)
    decreases |x.pending|
  {
    if Complete(x.pending, x.next, n, self) {
      HandOutTracks(x, m, n, self);
      WithoutShrinks(x.pending, x.next, n, self);
      ForwardCatchesUp(HandOut(x, n, self), m, n, self);
    } else {
      var s: nat :| Remote(n, self, s) && (s, x.next) !in x.pending;
      assert (s, x.next) !in m;
    }
  }

  /** What counts as arrived: a later copy replaces an earlier one until the block is handed out. */
  function Note(m: Pending, next: nat, a: Arrival): Pending {
    if a.id < next then m else m[(a.sender, a.id) := a.payload]
  }

  /** One accepted broadcast, new, repeated or different from an earlier copy, keeps the inbox in step. */
  lemma AcceptKeepsUp(x: Inbox, m: Pending, a: Arrival, n: nat, self: nat)
    requires Session(n, self) && UpToDate(x, m, n, self) && Remote(n, self, a.sender)
    ensures UpToDate(Accept(x, a, n, self), Note(m, x.next, a), n, self)
  {
    var key := (a.sender, a.id);
    var m' := Note(m, x.next, a);
    BlocksStable(m, m', x.next, n, self);
    assert a.id < x.next ==> Complete(m, a.id, n, self);
    ForwardCatchesUp(x.(pending := x.pending[key := a.payload]), m', n, self);
  }

  lemma {:induction false} ArrivedValue(arrivals: seq<Arrival>, n: nat, self: nat, a: Arrival)
    requires Consistent(arrivals, n, self)
    ensures a in arrivals ==> (a.sender, a.id) in Arrived(arrivals) && Arrived(arrivals)[(a.sender, a.id)] == a.payload
    ensures (a.sender, a.id) in Arrived(arrivals) && Arrived(arrivals)[(a.sender, a.id)] == a.payload ==> a in arrivals
  {
    if arrivals != [] {
      var init := arrivals[..|arrivals| - 1];
      var last := arrivals[|arrivals| - 1];
      ArrivedValue(init, n, self, a);
      assert arrivals == init + [last];
      if a in arrivals && a.sender == last.sender && a.id == last.id {
        var i :| 0 <= i < |arrivals| && arrivals[i] == a;
        assert arrivals[|arrivals| - 1].payload == arrivals[i].payload;
      }
    }
  }

  lemma RepeatIsNoted(x: Inbox, m: Pending, a: Arrival, n: nat, self: nat)
    requires Tracks(x, m, n, self) && Remote(n, self, a.sender)
    requires (a.sender, a.id) in m ==> m[(a.sender, a.id)] == a.payload
    ensures Note(m, x.next, a) == m[(a.sender, a.id) := a.payload]
  {
    assert a.id < x.next ==> Complete(m, a.id, n, self);
  }

  /**
    Delivery confluence: whatever order broadcasts arrive in, the stream handed to the
    protocol is blocks 0..K-1 of what arrived, K being the first block that is not complete.
  */
  lemma {:induction false} DeliveryConfluence(arrivals: seq<Arrival>, n: nat, self: nat)
    requires Session(n, self) && Consistent(arrivals, n, self)
    ensures UpToDate(AcceptAll(arrivals, n, self), Arrived(arrivals), n, self)
  {
    if arrivals == [] {
      assert Remote(n, self, if self == 1 then 2 else 1);
    } else {
      var init := arrivals[..|arrivals| - 1];
      var a := arrivals[|arrivals| - 1];
      DeliveryConfluence(init, n, self);
      var earlier := if (a.sender, a.id) in Arrived(init) then Arrived(init)[(a.sender, a.id)] else a.payload;
      ArrivedValue(init, n, self, Arrival(a.sender, a.id, earlier));
      AcceptKeepsUp(AcceptAll(init, n, self), Arrived(init), a, n, self);
      RepeatIsNoted(AcceptAll(init, n, self), Arrived(init), a, n, self);
    }
  }

  /** Two arrival orders of the same broadcasts hand the protocol the same stream. */
  lemma SameArrivalsSameStream(a: seq<Arrival>, b: seq<Arrival>, n: nat, self: nat)
    requires Session(n, self) && Consistent(a, n, self) && Consistent(b, n, self)
    requires forall x :: x in a <==> x in b
    ensures AcceptAll(a, n, self).delivered == AcceptAll(b, n, self).delivered
    ensures AcceptAll(a, n, self).next == AcceptAll(b, n, self).next
  {
    var ma, mb := Arrived(a), Arrived(b);
    forall k | k in ma || k in mb
      ensures k in ma && k in mb && ma[k] == mb[k]
    {
      var x := Arrival(k.0, k.1, if k in ma then ma[k] else mb[k]);
      ArrivedValue(a, n, self, x);
      ArrivedValue(b, n, self, x);
    }
    assert ma == mb;
    DeliveryConfluence(a, n, self);
    DeliveryConfluence(b, n, self);
    var xa, xb := AcceptAll(a, n, self), AcceptAll(b, n, self);
    assert xa.next == xb.next;
  }

  // ---- Channel bounds ----

  /** Forwarding only appends, n - 1 messages for each block it hands out. */
  lemma {:induction false} ForwardAppends(x: Inbox, n: nat, self: nat)
    requires Session(n, self)
    ensures x.delivered <= Forward(x, n, self).delivered
    ensures x.next <= Forward(x, n, self).next
    ensures |Forward(x, n, self).delivered| == |x.delivered| + (Forward(x, n, self).next - x.next) * (n - 1)
    decreases |x.pending|
  {
    if Complete(x.pending, x.next, n, self) {
      RemotesAre(n, self);
      WithoutShrinks(x.pending, x.next, n, self);
      var x' := HandOut(x, n, self);
      ForwardAppends(x', n, self);
      var blocks := Forward(x', n, self).next - x'.next;
      assert (blocks + 1) * (n - 1) == blocks * (n - 1) + (n - 1);
    }
  }

  /** How far one poll gets beyond a buffer whose next block was not complete. */
  lemma AcceptProgress(x: Inbox, a: Arrival, n: nat, self: nat)
    requires Session(n, self) && !Complete(x.pending, x.next, n, self)
    ensures var p := x.pending[(a.sender, a.id) := a.payload];
            Accept(x, a, n, self).next <= x.next + 1 <==>
            !(Complete(p, x.next, n, self) && Complete(p, x.next + 1, n, self))
  {
    var x0 := x.(pending := x.pending[(a.sender, a.id) := a.payload]);
    if Complete(x0.pending, x0.next, n, self) {
      var x1 := HandOut(x0, n, self);
      assert Complete(x1.pending, x1.next, n, self) <==> Complete(x0.pending, x0.next + 1, n, self);
      assert Accept(x, a, n, self) == Forward(x1, n, self);
      if Complete(x1.pending, x1.next, n, self) {
        ForwardAppends(HandOut(x1, n, self), n, self);
        assert Forward(x1, n, self) == Forward(HandOut(x1, n, self), n, self);
      }
    }
  }

  lemma AtMostOneFits(blocks: nat, width: nat)
    requires width >= 1
    ensures blocks * width <= width <==> blocks <= 1
  {
    if blocks >= 2 {
      assert blocks * width == 2 * width + (blocks - 2) * width;
    }
  }

  /**
    One poll hands the protocol at most n - 1 messages exactly when it does not complete two
    blocks at once, so that an emptied channel of capacity n - 1 takes them all.
  */
  lemma PollFitsChannelIff(x: Inbox, a: Arrival, n: nat, self: nat)
    requires Session(n, self) && !Complete(x.pending, x.next, n, self)
    ensures var p := x.pending[(a.sender, a.id) := a.payload];
            |Accept(x, a, n, self).delivered| - |x.delivered| <= n - 1 <==>
            !(Complete(p, x.next, n, self) && Complete(p, x.next + 1, n, self))
  {
    AcceptProgress(x, a, n, self);
    ForwardAppends(x.(pending := x.pending[(a.sender, a.id) := a.payload]), n, self);
    AtMostOneFits(Accept(x, a, n, self).next - x.next, n - 1);
  }

  /** Every sender's broadcasts arrive in the order of their numbers. */
  ghost predicate InOrder(arrivals: seq<Arrival>) {
    forall i, j :: 0 <= i < j < |arrivals| && arrivals[i].sender == arrivals[j].sender
      ==> arrivals[i].id < arrivals[j].id
  }

  lemma InOrderNothingLater(arrivals: seq<Arrival>, a: Arrival, later: Arrival)
    requires InOrder(arrivals + [a]) && later.sender == a.sender && a.id < later.id
    ensures later !in arrivals
  {
    var all := arrivals + [a];
    forall i | 0 <= i < |arrivals| ensures arrivals[i] != later {
      assert all[i] == arrivals[i] && all[|arrivals|] == a;
    }
  }

  /** With in-order senders, a broadcast never finds its successor already buffered. */
  lemma SuccessorNotBuffered(arrivals: seq<Arrival>, a: Arrival, n: nat, self: nat)
    requires Session(n, self) && Consistent(arrivals, n, self) && InOrder(arrivals + [a])
    ensures (a.sender, a.id + 1) !in AcceptAll(arrivals, n, self).pending
  {
    DeliveryConfluence(arrivals, n, self);
    var m := Arrived(arrivals);
    var later := (a.sender, a.id + 1);
    var b := Arrival(a.sender, a.id + 1, if later in m then m[later] else []);
    InOrderNothingLater(arrivals, a, b);
    ArrivedValue(arrivals, n, self, b);
  }

  /** With in-order senders no poll hands out more than n - 1 messages. */
  lemma ChannelBound(arrivals: seq<Arrival>, a: Arrival, n: nat, self: nat)
    requires Session(n, self) && Consistent(arrivals, n, self) && InOrder(arrivals + [a])
    ensures |Accept(AcceptAll(arrivals, n, self), a, n, self).delivered|
            <= |AcceptAll(arrivals, n, self).delivered| + n - 1
  {
    var x := AcceptAll(arrivals, n, self);
    DeliveryConfluence(arrivals, n, self);
    UpToDateStops(x, Arrived(arrivals), n, self);
    SuccessorNotBuffered(arrivals, a, n, self);
    NoSuccessorFits(x, a, n, self);
  }

  lemma UpToDateStops(x: Inbox, m: Pending, n: nat, self: nat)
    requires UpToDate(x, m, n, self)
    ensures !Complete(x.pending, x.next, n, self)
  {
    var s: nat :| Remote(n, self, s) && (s, x.next) !in m;
    assert (s, x.next) !in x.pending;
  }

  lemma NoSuccessorFits(x: Inbox, a: Arrival, n: nat, self: nat)
    requires Session(n, self) && !Complete(x.pending, x.next, n, self)
    requires (a.sender, a.id + 1) !in x.pending
    ensures |Accept(x, a, n, self).delivered| - |x.delivered| <= n - 1
  {
    PollFitsChannelIff(x, a, n, self);
    var p := x.pending[(a.sender, a.id) := a.payload];
    if Complete(p, x.next, n, self) {
      var s: nat :| Remote(n, self, s) && (s, x.next) !in x.pending;
      assert a.sender == s && a.id == x.next;
      assert (s, x.next + 1) !in p;
    }
  }

  /** Out of order, two parties are enough to overflow: the second arrival releases two blocks. */
  lemma OutOfOrderOverflows(first: Bytes, second: Bytes)
    ensures var arrivals := [Arrival(2, 1, second), Arrival(2, 0, first)];
            |AcceptAll(arrivals, 2, 1).delivered| > |AcceptAll(arrivals[..1], 2, 1).delivered| + 2 - 1
  {
    var arrivals := [Arrival(2, 1, second), Arrival(2, 0, first)];
    var one := [Arrival(2, 1, second)];
    assert arrivals[..1] == one && one[..0] == [];
    var x := AcceptAll(one, 2, 1);
    assert x == Accept(AcceptAll([], 2, 1), one[0], 2, 1);
    assert Remote(2, 1, 2);
    assert x == Inbox(map[(2, 1) := second], 0, []);
    assert AcceptAll(arrivals, 2, 1) == Accept(x, arrivals[1], 2, 1);
    var p := x.pending[(2, 0) := first];
    assert Complete(p, 0, 2, 1) && Complete(p, 1, 2, 1);
    PollFitsChannelIff(x, arrivals[1], 2, 1);
  }

  // ---- The whole poll ----

  /** The value of the execution's message state; the sequences record everything sent so far. */
  datatype State = State(
    inbox: Inbox,
    nextOut: nat,
    multicasts: seq<(nat, Bytes)>, // broadcast number and body, sent to every remote
    unicasts: seq<(nat, Bytes)>, // receiving party and body
    toProtocol: seq<ProtocolMessage>,
    echo: seq<EchoMessage>)

  const START := State(EMPTY, 0, [], [], [], [])

  function AsProtocol(b: seq<EchoMessage>): seq<ProtocolMessage> {
    seq(|b|, i requires 0 <= i < |b| => ProtocolMessage(b[i].sender, None, b[i].payload))
  }

  /** Takes one message from the protocol: a broadcast gets the next number and goes to the gadget too. */
  function Emit(s: State, out: ProtocolOutput, self: nat): State {
    match out.to
    case Some(party) => s.(unicasts := s.unicasts + [(party, out.body)])
    case None => s.(
      nextOut := s.nextOut + 1,
      multicasts := s.multicasts + [(s.nextOut, out.body)],
      echo := s.echo + [EchoMessage(s.nextOut, self, out.body, true)])
  }

  /** Only computation messages of the running session are taken in. */
  predicate Relevant(m: IncomingRequest, sessionId: Bytes) {
    m.context.sessionId == sessionId && m.context.messageType == Computation
  }

  function TakeIn(s: State, m: IncomingRequest, self: nat): State {
    if m.isBroadcast then
      s.(inbox := s.inbox.(pending := s.inbox.pending[(m.peerIndex + 1, m.context.messageId) := m.payload]))
    else
      s.(toProtocol := s.toProtocol + [ProtocolMessage(m.peerIndex + 1, Some(self), m.payload)])
  }

  /** The state after the inbox has moved on to x: newly delivered blocks go both ways. */
  function Advance(s: State, x: Inbox): State
    requires s.inbox.delivered <= x.delivered
  {
    var newly := x.delivered[|s.inbox.delivered|..];
    s.(inbox := x, toProtocol := s.toProtocol + AsProtocol(newly), echo := s.echo + newly)
  }

  lemma AdvanceTwice(s: State, x: Inbox, y: Inbox)
    requires s.inbox.delivered <= x.delivered <= y.delivered
    ensures Advance(Advance(s, x), y) == Advance(s, y)
  {
    var d := s.inbox.delivered;
    assert y.delivered[|d|..] == x.delivered[|d|..] + y.delivered[|x.delivered|..];
    assert AsProtocol(y.delivered[|d|..]) == AsProtocol(x.delivered[|d|..]) + AsProtocol(y.delivered[|x.delivered|..]);
  }

  /** Forwards the complete blocks, to the protocol and to the gadget. */
  ghost function Flush(s: State, n: nat, self: nat): State
    requires Session(n, self)
  {
    ForwardAppends(s.inbox, n, self);
    Advance(s, Forward(s.inbox, n, self))
  }

  ghost function Poll(s: State, out: Option<ProtocolOutput>, inc: Option<IncomingRequest>,
                      sessionId: Bytes, n: nat, self: nat): State
    requires Session(n, self)
  {
    var s1 := if out.Some? then Emit(s, out.value, self) else s;
    if inc.None? then Flush(s1, n, self)
    else if !Relevant(inc.value, sessionId) then s1
    else Flush(TakeIn(s1, inc.value, self), n, self)
  }

  /** Handing out what has been delivered since gives the protocol as many messages. */
  lemma AdvanceCount(s: State, x: Inbox)
    requires s.inbox.delivered <= x.delivered
    ensures |Advance(s, x).toProtocol| - |s.toProtocol| == |x.delivered| - |s.inbox.delivered|
  {
  }

  /** The message completes the next block and the one after it. */
  ghost predicate CompletesTwo(x: Inbox, m: IncomingRequest, n: nat, self: nat) {
    var p := x.pending[(m.peerIndex + 1, m.context.messageId) := m.payload];
    m.isBroadcast && Complete(p, x.next, n, self) && Complete(p, x.next + 1, n, self)
  }

  /**
    A whole poll, whatever the protocol sends and the network brings, puts at most n - 1 messages
    in the protocol's channel exactly when it does not complete two blocks at once.
  */
  lemma WholePollFitsIff(s: State, out: Option<ProtocolOutput>, inc: Option<IncomingRequest>, sessionId: Bytes,
                         n: nat, self: nat)
    requires Session(n, self) && !Complete(s.inbox.pending, s.inbox.next, n, self)
    ensures |Poll(s, out, inc, sessionId, n, self).toProtocol| - |s.toProtocol| <= n - 1 <==>
              !(inc.Some? && Relevant(inc.value, sessionId) && CompletesTwo(s.inbox, inc.value, n, self))
  {
    hide Complete, Advance;
    var s1 := if out.Some? then Emit(s, out.value, self) else s;
    if inc.None? {
      AdvanceCount(s1, s1.inbox);
    } else if Relevant(inc.value, sessionId) {
      var m := inc.value;
      var s2 := TakeIn(s1, m, self);
      ForwardAppends(s2.inbox, n, self);
      AdvanceCount(s2, Forward(s2.inbox, n, self));
      PollFitsChannelIff(s.inbox, Arrival(m.peerIndex + 1, m.context.messageId, m.payload), n, self);
    }
  }

  lemma AsProtocolPush(b: seq<EchoMessage>, e: EchoMessage)
    ensures AsProtocol(b + [e]) == AsProtocol(b) + [ProtocolMessage(e.sender, None, e.payload)]
  {
  }

  /** The buffer without broadcast m of the listed senders. */
  function Drop(p: Pending, m: nat, senders: seq<nat>): Pending {
    map k | k in p && !(k.1 == m && k.0 in senders) :: p[k]
  }

  lemma DropNext(p: Pending, m: nat, senders: seq<nat>, i: nat)
    requires i < |senders| && senders[i] !in senders[..i] && (senders[i], m) in p
    ensures (senders[i], m) in Drop(p, m, senders[..i])
    ensures Drop(p, m, senders[..i]) - {(senders[i], m)} == Drop(p, m, senders[..i + 1])
  {
    assert senders[..i + 1] == senders[..i] + [senders[i]];
  }

  lemma DropAll(p: Pending, m: nat, senders: seq<nat>, n: nat, self: nat)
    requires FromRemotes(p, n, self) && senders == Remotes(n, self)
    ensures Drop(p, m, senders) == Without(p, m)
  {
    RemotesAre(n, self);
  }

  class ProtocolExecution {
    const sessionId: Bytes
    const n: nat
    const self: nat
    var nextOutgoingBroadcastId: nat
    var nextIncomingBroadcastId: nat
    var pendingIncoming: Pending
    var toProtocol: seq<ProtocolMessage>
    var echoTx: seq<EchoMessage>
    var multicasts: seq<(nat, Bytes)>
    var unicasts: seq<(nat, Bytes)>
    ghost var delivered: seq<EchoMessage>

    ghost predicate Valid()
      reads this
    {
      Session(n, self) && FromRemotes(pendingIncoming, n, self)
    }

    ghost function Value(): State
      reads this
    {
      State(Inbox(pendingIncoming, nextIncomingBroadcastId, delivered),
            nextOutgoingBroadcastId, multicasts, unicasts, toProtocol, echoTx)
    }

    constructor (sessionId: Bytes, n: nat, self: nat)
      requires Session(n, self)
      ensures Valid() && Value() == START
      ensures this.sessionId == sessionId && this.n == n && this.self == self
    {
      this.sessionId, this.n, this.self := sessionId, n, self;
      nextOutgoingBroadcastId, nextIncomingBroadcastId := 0, 0;
      pendingIncoming, toProtocol, echoTx, multicasts, unicasts, delivered := map[], [], [], [], [], [];
    }

    /** The senders whose broadcast m is buffered, ascending. */
    method ReadySenders(m: nat) returns (ready: seq<nat>)
      ensures ready == Ready(pendingIncoming, m, n)
    {
      ready := [];
      for k := 1 to n + 1
        invariant ready == Ready(pendingIncoming, m, k - 1)
      {
        if (k, m) in pendingIncoming {
          ready := ready + [k];
        }
      }
    }

    /** Takes the block out of the buffer and sends it both ways, sender by sender. */
    method SendBlock(m: nat, ready: seq<nat>)
      requires forall i :: 0 <= i < |ready| ==> (ready[i], m) in pendingIncoming && ready[i] !in ready[..i]
      requires forall s: nat :: s in ready ==> (s, m) in pendingIncoming
      modifies this`pendingIncoming, this`echoTx, this`toProtocol
      ensures pendingIncoming == Drop(old(pendingIncoming), m, ready)
      ensures echoTx == old(echoTx) + Block(old(pendingIncoming), m, ready)
      ensures toProtocol == old(toProtocol) + AsProtocol(Block(old(pendingIncoming), m, ready))
    {
      ghost var p := pendingIncoming;
      ghost var block := Block(p, m, ready);
      assert Drop(p, m, ready[..0]) == p;
      for i := 0 to |ready|
        invariant pendingIncoming == Drop(p, m, ready[..i])
        invariant echoTx == old(echoTx) + block[..i]
        invariant toProtocol == old(toProtocol) + AsProtocol(block[..i])
      {
        var sender := ready[i];
        DropNext(p, m, ready, i);
        var payload := pendingIncoming[(sender, m)];
        pendingIncoming := pendingIncoming - {(sender, m)};
        echoTx := echoTx + [EchoMessage(m, sender, payload, false)];
        toProtocol := toProtocol + [ProtocolMessage(sender, None, payload)];
        AsProtocolPush(block[..i], block[i]);
        assert block[..i + 1] == block[..i] + [block[i]];
      }
      assert block[..|ready|] == block && ready[..|ready|] == ready;
    }

    /** Hands out one complete block. */
    method HandOutBlock(ready: seq<nat>)
      requires Valid() && Complete(pendingIncoming, nextIncomingBroadcastId, n, self)
      requires ready == Remotes(n, self)
      modifies this
      ensures Valid()
      ensures Value() == Advance(old(Value()), HandOut(old(Value().inbox), n, self))
    {
      RemotesAre(n, self);
      ghost var p := pendingIncoming;
      var m := nextIncomingBroadcastId;
      SendBlock(m, ready);
      DropAll(p, m, ready, n, self);
      nextIncomingBroadcastId := m + 1;
      delivered := delivered + Block(p, m, ready);
      assert delivered[|old(delivered)|..] == Block(p, m, ready);
    }

    method ForwardBufferedMessages()
      requires Valid()
      modifies this
      ensures Valid() && Value() == Flush(old(Value()), n, self)
    {
      ghost var s0 := Value();
      ForwardAppends(s0.inbox, n, self);
      while true
        invariant Valid()
        invariant Forward(Value().inbox, n, self) == Forward(s0.inbox, n, self)
        invariant s0.inbox.delivered <= delivered
        invariant Value() == Advance(s0, Value().inbox)
        decreases |pendingIncoming|
      {
        var ready := ReadySenders(nextIncomingBroadcastId);
        ReadyIffComplete(pendingIncoming, nextIncomingBroadcastId, n, self);
        if |ready| != n - 1 {
          break;
        }
        WithoutShrinks(pendingIncoming, nextIncomingBroadcastId, n, self);
        ghost var x := Value().inbox;
        HandOutBlock(ready);
        AdvanceTwice(s0, x, Value().inbox);
      }
    }

    /** One poll: at most one message out, at most one in, then every complete block forwarded. */
    method PollOnce(out: Option<ProtocolOutput>, inc: Option<IncomingRequest>) returns (rejected: bool)
      requires Valid()
      requires inc.Some? ==> Remote(n, self, inc.value.peerIndex + 1)
      modifies this
      ensures Valid() && Value() == Poll(old(Value()), out, inc, sessionId, n, self)
      ensures rejected <==> inc.Some? && !Relevant(inc.value, sessionId)
    {
      rejected := false;
      if out.Some? {
        match out.value.to
        case Some(party) =>
          unicasts := unicasts + [(party, out.value.body)];
        case None =>
          var id := nextOutgoingBroadcastId;
          nextOutgoingBroadcastId := id + 1;
          multicasts := multicasts + [(id, out.value.body)];
          echoTx := echoTx + [EchoMessage(id, self, out.value.body, true)];
      }
      if inc.Some? {
        var m := inc.value;
        if m.context.sessionId != sessionId || m.context.messageType != Computation {
          return true;
        }
        if m.isBroadcast {
          pendingIncoming := pendingIncoming[(m.peerIndex + 1, m.context.messageId) := m.payload];
        } else {
          toProtocol := toProtocol + [ProtocolMessage(m.peerIndex + 1, Some(self), m.payload)];
        }
      }
      ForwardBufferedMessages();
    }
  }
}
