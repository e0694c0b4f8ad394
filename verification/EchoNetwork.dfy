/**
  n parties running the echo broadcast over an asynchronous network.

  Every party is an execution feeding an echo gadget.  Broadcast copies, acknowledgements and
  local work interleave freely.  A sender may give different recipients different copies, send
  one recipient several, and send numbers out of turn; any request may fail.  The steps of a party
  that touch no one else are taken together: receiving one message from the channel and, if that
  makes a group ready, hashing it and sending the acknowledgements.
*/
module EchoNetwork {
  import opened Basics
  import opened Messages
  import opened Execution
  import opened Echo
  import opened EchoOrder
  import opened Cbor

  datatype Config = Config(n: nat, hash: Bytes -> Bytes)

  datatype Phase = Collecting | Comparing(id: nat, hash: Bytes) | Stopped

  datatype Party = Party(
    own: seq<Bytes>, // bodies of this party's own broadcasts
    inbox: Inbox,
    channel: seq<EchoMessage>, // from the execution to the gadget
    msgs: Groups,
    phase: Phase,
    confirmed: nat, // rounds confirmed so far
    taken: Position, // history: how far the gadget has read its channel
    seen: Pending // history: the copies this party got, the last one before their block went out
  )

  /** Broadcast `id` of `from`, as sent to `to`; acknowledgements are named the same way. */
  datatype Link = Link(from: nat, to: nat, id: nat)

  datatype System = System(
    parties: map<nat, Party>,
    wire: map<Link, Bytes>, // the copy that each broadcast sent to each recipient
    flight: set<Link>, // those not delivered yet
    acks: map<Link, Bytes>, // acknowledgements sent: `from` hashed round `id` and told `to`
    replies: map<Link, Option<Bytes>> // replies arrived at `to` from `from`; None is a failure
  )

  datatype Action =
    | Broadcast(p: nat, body: Bytes, copies: map<nat, Bytes>)
    | Deliver(link: Link)
    | Resend(link: Link, body: Bytes) // some copy arrives that no broadcast sent
    | Take(p: nat)
    | Answer(link: Link)
    | Lose(link: Link)
    | Compare(p: nat)

  /** The other parties. */
  function Others(n: nat, p: nat): set<nat> {
    UpTo(n) - {p}
  }

  const FRESH := Party([], EMPTY, [], map[], Collecting, 0, ORIGIN, map[])

  function Initial(cfg: Config): System {
    System(map p | p in UpTo(cfg.n) :: FRESH, map[], {}, map[], map[])
  }

  /** The replies to p's broadcast id that have arrived. */
  function RepliesTo(s: System, p: nat, id: nat): set<Link> {
    set l | l in s.replies && l.to == p && l.id == id
  }

  predicate AllAgree(s: System, p: nat, id: nat, h: Bytes) {
    forall l :: l in RepliesTo(s, p, id) ==> s.replies[l] == Some(h)
  }

  ghost predicate Enabled(cfg: Config, s: System, a: Action) {
    match a
    case Broadcast(p, body, copies) => p in s.parties && copies.Keys == Others(cfg.n, p)
    case Deliver(link) => link in s.flight && link in s.wire && link.to in s.parties
    case Resend(link, _) => link.to in s.parties && link.from in Others(cfg.n, link.to)
    case Take(p) => p in s.parties && s.parties[p].phase == Collecting && s.parties[p].channel != []
    case Answer(link) => link in s.acks && link !in s.replies
    case Lose(link) =>
      && link !in s.replies && link.to in s.parties && link.from in Others(cfg.n, link.to)
      && link.id < |s.parties[link.to].own|
    case Compare(p) =>
      && p in s.parties && s.parties[p].phase.Comparing?
      && |RepliesTo(s, p, s.parties[p].phase.id)| == cfg.n - 1
  }

  function BroadcastParty(pt: Party, p: nat, body: Bytes): Party {
    pt.(own := pt.own + [body], channel := pt.channel + [EchoMessage(|pt.own|, p, body, true)])
  }

  /** What b has beyond a. */
  function Suffix(a: seq<EchoMessage>, b: seq<EchoMessage>): seq<EchoMessage> {
    if a <= b then b[|a|..] else []
  }

  ghost function DeliverParty(cfg: Config, pt: Party, link: Link, body: Bytes): Party
    requires Session(cfg.n, link.to)
  {
    var x := Accept(pt.inbox, Arrival(link.from, link.id, body), cfg.n, link.to);
    pt.(inbox := x,
      channel := pt.channel + Suffix(pt.inbox.delivered, x.delivered),
      seen := Note(pt.seen, pt.inbox.next, Arrival(link.from, link.id, body)))
  }

  /** Receives the next message, and starts the round that it completes. */
  ghost function TakeParty(cfg: Config, pt: Party): Party
    requires pt.channel != []
  {
    var e := pt.channel[0];
    var msgs := Receive(pt.msgs, e);
    var pt' := pt.(channel := pt.channel[1..], taken := Next(cfg.n, pt.taken, e));
    match FirstReady(cfg.n, msgs)
    case None => pt'.(msgs := msgs)
    case Some(id) =>
      pt'.(msgs := msgs - {id},
        phase := if FirstDuplicate(SortBySender(msgs[id]), {}).Some? then Stopped
                 else Comparing(id, GroupHash(msgs[id], cfg.hash)))
  }

  /** The hash h of p's group, to the sender of each incoming message in it. */
  function AcksFor(p: nat, g: seq<EchoMessage>, id: nat, h: Bytes): map<Link, Bytes> {
    var links := set e | e in g && !e.outgoing :: Link(p, e.sender, id);
    map l | l in links :: h
  }

  /** The acknowledgements that go out when that round starts: one to each incoming sender. */
  ghost function TakeAcks(cfg: Config, p: nat, pt: Party): map<Link, Bytes>
    requires pt.channel != []
  {
    var msgs := Receive(pt.msgs, pt.channel[0]);
    match FirstReady(cfg.n, msgs)
    case None => map[]
    case Some(id) =>
      if FirstDuplicate(SortBySender(msgs[id]), {}).Some? then map[]
      else AcksFor(p, msgs[id], id, GroupHash(msgs[id], cfg.hash))
  }

  ghost function Apply(cfg: Config, s: System, a: Action): System
    requires cfg.n >= 2 && s.parties.Keys == UpTo(cfg.n)
    requires Enabled(cfg, s, a)
  {
    match a
    case Broadcast(p, body, copies) =>
      var id := |s.parties[p].own|;
      var links := set q | q in copies :: Link(p, q, id);
      s.(parties := s.parties[p := BroadcastParty(s.parties[p], p, body)],
        wire := s.wire + map l | l in links :: copies[l.to],
        flight := s.flight + links)
    case Deliver(link) =>
      s.(parties := s.parties[link.to := DeliverParty(cfg, s.parties[link.to], link, s.wire[link])],
        flight := s.flight - {link})
    case Resend(link, body) =>
      s.(parties := s.parties[link.to := DeliverParty(cfg, s.parties[link.to], link, body)])
    case Take(p) =>
      s.(parties := s.parties[p := TakeParty(cfg, s.parties[p])],
        acks := s.acks + TakeAcks(cfg, p, s.parties[p]))
    case Answer(link) => s.(replies := s.replies[link := Some(s.acks[link])])
    case Lose(link) => s.(replies := s.replies[link := None])
    case Compare(p) =>
      var pt := s.parties[p];
      s.(parties := s.parties[p :=
        if AllAgree(s, p, pt.phase.id, pt.phase.hash) then pt.(confirmed := pt.confirmed + 1, phase := Collecting)
        else pt.(phase := Stopped)])
  }

  /** The state after a run, if every action was enabled when it was taken. */
  ghost function Exec(cfg: Config, actions: seq<Action>): (r: Option<System>)
    requires cfg.n >= 2
    ensures r.Some? ==> r.value.parties.Keys == UpTo(cfg.n)
  {
    if actions == [] then Some(Initial(cfg))
    else
      var before := Exec(cfg, actions[..|actions| - 1]);
      var a := actions[|actions| - 1];
      if before.Some? && Enabled(cfg, before.value, a) then Some(Apply(cfg, before.value, a)) else None
  }

  // ---- What each party hashes ----

  /** The body that p holds for sender k's broadcast id. */
  function BodyAt(p: nat, own: seq<Bytes>, seen: Pending, id: nat, k: nat): Bytes {
    if k == p then (if id < |own| then own[id] else [])
    else if (k, id) in seen then seen[(k, id)]
    else []
  }

  /** The sender-indexed vector of bodies of round id, as p has them. */
  function VectorOf(cfg: Config, p: nat, own: seq<Bytes>, seen: Pending, id: nat): seq<Bytes> {
    seq(cfg.n, k requires 0 <= k < cfg.n => BodyAt(p, own, seen, id, k + 1))
  }

  function Digest(cfg: Config, v: seq<Bytes>): Bytes {
    cfg.hash(Concat(v))
  }

  /** A message in p's hands carries the body that p has for its sender and number. */
  ghost predicate Genuine(p: nat, own: seq<Bytes>, seen: Pending, next: nat, e: EchoMessage) {
    && (e.outgoing ==> e.sender == p && e.id < |own| && e.payload == own[e.id])
    && (!e.outgoing ==>
          && e.sender != p && e.id < next && (e.sender, e.id) in seen && e.payload == seen[(e.sender, e.id)])
  }

  // ---- The invariant of one party ----

  ghost predicate PhaseOk(cfg: Config, p: nat, pt: Party) {
    match pt.phase
    case Collecting => pt.confirmed == pt.taken.Rounds()
    case Comparing(id, h) =>
      && id == pt.confirmed && pt.taken.Rounds() == id + 1
      && h == Digest(cfg, VectorOf(cfg, p, pt.own, pt.seen, id))
    case Stopped => pt.confirmed < pt.taken.Rounds()
  }

  ghost predicate MessagesOk(p: nat, pt: Party) {
    && (forall e :: e in pt.channel ==> Genuine(p, pt.own, pt.seen, pt.inbox.next, e))
    && (forall id: nat, e :: id in pt.msgs && e in pt.msgs[id] ==> Genuine(p, pt.own, pt.seen, pt.inbox.next, e))
  }

  ghost predicate StreamsOk(cfg: Config, p: nat, pt: Party)
    requires Session(cfg.n, p)
  {
    && UpToDate(pt.inbox, pt.seen, cfg.n, p)
    && Fed(cfg.n, p, pt.taken, pt.channel)
    && Final(cfg.n, pt.taken, pt.channel) == Position(pt.inbox.next, 0, |pt.own|)
    && Holds(cfg.n, p, pt.msgs, pt.taken, pt.taken.Rounds())
  }

  ghost predicate PartyOk(cfg: Config, p: nat, pt: Party)
    requires Session(cfg.n, p)
  {
    StreamsOk(cfg, p, pt) && PhaseOk(cfg, p, pt) && MessagesOk(p, pt)
  }

  /** The party has gone on: what it sent stays, and so does what it got for blocks handed out. */
  ghost predicate Keeps(pt: Party, pt': Party) {
    && pt.own <= pt'.own && pt.inbox.next <= pt'.inbox.next
    && forall k :: k in pt.seen && k.1 < pt.inbox.next ==> k in pt'.seen && pt'.seen[k] == pt.seen[k]
  }

  /** Everything p hashes in a started round has been handed out, so its vector no longer changes. */
  ghost predicate Settled(cfg: Config, p: nat, pt: Party, id: nat) {
    id < |pt.own| && id < pt.inbox.next && forall k :: k in Others(cfg.n, p) ==> (k, id) in pt.seen
  }

  lemma VectorStable(cfg: Config, p: nat, pt: Party, pt': Party, id: nat)
    requires Settled(cfg, p, pt, id) && Keeps(pt, pt')
    ensures VectorOf(cfg, p, pt'.own, pt'.seen, id) == VectorOf(cfg, p, pt.own, pt.seen, id)
  {
    var v, v' := VectorOf(cfg, p, pt.own, pt.seen, id), VectorOf(cfg, p, pt'.own, pt'.seen, id);
    forall k | 0 <= k < cfg.n ensures v'[k] == v[k] {
      assert k + 1 != p ==> k + 1 in Others(cfg.n, p);
    }
  }

  lemma StartedSettled(cfg: Config, p: nat, pt: Party, id: nat)
    requires Session(cfg.n, p) && StreamsOk(cfg, p, pt) && id < pt.taken.Rounds()
    ensures Settled(cfg, p, pt, id)
  {
    hide Holds;
    RoundsGrow(cfg.n, pt.taken, pt.channel);
    assert id < pt.inbox.next && id < |pt.own|;
    assert Complete(pt.seen, id, cfg.n, p);
    forall k | k in Others(cfg.n, p) ensures (k, id) in pt.seen {
      assert Remote(cfg.n, p, k);
    }
  }

  /** The hash and the messages in hand stay right while the party goes on. */
  lemma StillOk(cfg: Config, p: nat, pt: Party, pt': Party)
    requires Session(cfg.n, p) && PartyOk(cfg, p, pt) && Keeps(pt, pt')
    requires pt'.phase == pt.phase && pt'.confirmed == pt.confirmed && pt'.taken == pt.taken && pt'.msgs == pt.msgs
    ensures PhaseOk(cfg, p, pt')
    ensures forall e :: Genuine(p, pt.own, pt.seen, pt.inbox.next, e) ==>
        Genuine(p, pt'.own, pt'.seen, pt'.inbox.next, e)
    ensures forall id: nat, e :: id in pt'.msgs && e in pt'.msgs[id] ==>
        Genuine(p, pt'.own, pt'.seen, pt'.inbox.next, e)
  {
    hide StreamsOk, VectorOf;
    if pt.phase.Comparing? {
      StartedSettled(cfg, p, pt, pt.phase.id);
      VectorStable(cfg, p, pt, pt', pt.phase.id);
    }
  }

  // ---- Steps of one party ----

  lemma PartyBroadcasts(cfg: Config, p: nat, pt: Party, body: Bytes)
    requires Session(cfg.n, p) && PartyOk(cfg, p, pt)
    ensures PartyOk(cfg, p, BroadcastParty(pt, p, body)) && Keeps(pt, BroadcastParty(pt, p, body))
  {
    hide PhaseOk, Holds, UpToDate;
    var pt' := BroadcastParty(pt, p, body);
    var e := EchoMessage(|pt.own|, p, body, true);
    FedAppend(cfg.n, p, pt.taken, pt.channel, [e]);
    assert [e][1..] == [] && Fed(cfg.n, p, Next(cfg.n, Final(cfg.n, pt.taken, pt.channel), e), []);
    StillOk(cfg, p, pt, pt');
    assert Genuine(p, pt'.own, pt'.seen, pt'.inbox.next, e);
  }

  lemma BlockContent(m: Pending, k: nat, senders: seq<nat>, e: EchoMessage)
    requires e in Block(m, k, senders)
    ensures !e.outgoing && e.sender in senders && e.id == k && e.payload == BodyOf(m, e.sender, k)
  {
    var i :| 0 <= i < |senders| && Block(m, k, senders)[i] == e;
  }

  /** Every message of a block comes from what has been seen. */
  lemma {:induction false} BlocksContent(m: Pending, k: nat, n: nat, self: nat, e: EchoMessage)
    requires forall j :: 0 <= j < k ==> Complete(m, j, n, self)
    requires e in Blocks(m, k, n, self)
    ensures !e.outgoing && Remote(n, self, e.sender) && e.id < k
    ensures (e.sender, e.id) in m && e.payload == m[(e.sender, e.id)]
  {
    if k > 0 {
      hide Block, Remotes;
      if e in Block(m, k - 1, Remotes(n, self)) {
        RemotesAre(n, self);
        BlockContent(m, k - 1, Remotes(n, self), e);
        assert Complete(m, k - 1, n, self);
      } else {
        BlocksContent(m, k - 1, n, self, e);
      }
    }
  }

  lemma DeliverKeeps(cfg: Config, pt: Party, link: Link, body: Bytes)
    requires Session(cfg.n, link.to)
    ensures var pt' := DeliverParty(cfg, pt, link, body);
            && Keeps(pt, pt') && pt.inbox.delivered <= pt'.inbox.delivered && pt'.own == pt.own
  {
    ForwardAppends(pt.inbox.(pending := pt.inbox.pending[(link.from, link.id) := body]), cfg.n, link.to);
  }

  lemma DeliverStreams(cfg: Config, pt: Party, link: Link, body: Bytes)
    requires Session(cfg.n, link.to) && StreamsOk(cfg, link.to, pt) && link.from in Others(cfg.n, link.to)
    ensures StreamsOk(cfg, link.to, DeliverParty(cfg, pt, link, body))
  {
    hide Holds, UpToDate, Note;
    var p, n := link.to, cfg.n;
    var pt' := DeliverParty(cfg, pt, link, body);
    var a := Arrival(link.from, link.id, body);
    var x0 := pt.inbox.(pending := pt.inbox.pending[(link.from, link.id) := body]);
    AcceptKeepsUp(pt.inbox, pt.seen, a, n, p);
    ForwardAppends(x0, n, p);
    ForwardFed(x0, n, p, |pt.own|);
    FedAppend(n, p, pt.taken, pt.channel, pt'.inbox.delivered[|pt.inbox.delivered|..]);
  }

  lemma PartyAccepts(cfg: Config, pt: Party, link: Link, body: Bytes)
    requires Session(cfg.n, link.to) && PartyOk(cfg, link.to, pt) && link.from in Others(cfg.n, link.to)
    ensures PartyOk(cfg, link.to, DeliverParty(cfg, pt, link, body)) && Keeps(pt, DeliverParty(cfg, pt, link, body))
  {
    hide PhaseOk, Holds, Fed, Final, Note, Accept, Genuine;
    var p, n := link.to, cfg.n;
    var pt' := DeliverParty(cfg, pt, link, body);
    DeliverKeeps(cfg, pt, link, body);
    DeliverStreams(cfg, pt, link, body);
    StillOk(cfg, p, pt, pt');
    forall e | e in pt'.channel ensures Genuine(p, pt'.own, pt'.seen, pt'.inbox.next, e) {
      if e !in pt.channel {
        assert e in pt'.inbox.delivered;
        DeliveredGenuine(cfg, p, pt', e);
      }
    }
  }

  lemma DeliveredGenuine(cfg: Config, p: nat, pt: Party, e: EchoMessage)
    requires Session(cfg.n, p) && StreamsOk(cfg, p, pt) && e in pt.inbox.delivered
    ensures Genuine(p, pt.own, pt.seen, pt.inbox.next, e)
  {
    hide Holds, Fed, Final;
    BlocksContent(pt.seen, pt.inbox.next, cfg.n, p, e);
  }

  /** A full group of genuine messages is hashed as the party's vector for that round. */
  lemma GroupVector(cfg: Config, p: nat, pt: Party, g: seq<EchoMessage>, id: nat)
    requires Session(cfg.n, p) && OneEach(cfg.n, p, id, SortBySender(g))
    requires forall e :: e in g ==> Genuine(p, pt.own, pt.seen, pt.inbox.next, e)
    ensures GroupHash(g, cfg.hash) == Digest(cfg, VectorOf(cfg, p, pt.own, pt.seen, id))
  {
    hide SortBySender;
    var v, w := SortBySender(g), VectorOf(cfg, p, pt.own, pt.seen, id);
    forall k | 0 <= k < cfg.n ensures v[k].payload == w[k] {
      assert v[k] in v;
      assert Genuine(p, pt.own, pt.seen, pt.inbox.next, v[k]);
    }
    assert Payloads(v) == w;
  }

  /** It is acknowledged to every other party. */
  lemma GroupLinks(cfg: Config, p: nat, g: seq<EchoMessage>, id: nat)
    requires Session(cfg.n, p) && OneEach(cfg.n, p, id, SortBySender(g))
    ensures (set e | e in g && !e.outgoing :: Link(p, e.sender, id)) == set k | k in Others(cfg.n, p) :: Link(p, k, id)
  {
    hide SortBySender;
    var v := SortBySender(g);
    var links := set e | e in g && !e.outgoing :: Link(p, e.sender, id);
    forall k | k in Others(cfg.n, p) ensures Link(p, k, id) in links {
      assert v[k - 1] in v && !v[k - 1].outgoing && v[k - 1].sender == k;
    }
    forall e | e in g && !e.outgoing ensures e.sender in Others(cfg.n, p) {
      assert e in v;
      var k :| 0 <= k < cfg.n && v[k] == e;
    }
  }

  /** The position after taking a message, and the groups with that message filed. */
  lemma TakeReceives(cfg: Config, p: nat, pt: Party)
    requires Session(cfg.n, p) && StreamsOk(cfg, p, pt) && pt.channel != []
    ensures var e := pt.channel[0];
            var taken := Next(cfg.n, pt.taken, e);
            && Holds(cfg.n, p, Receive(pt.msgs, e), taken, pt.taken.Rounds())
            && pt.taken.Rounds() <= taken.Rounds() <= pt.taken.Rounds() + 1
            && Fed(cfg.n, p, taken, pt.channel[1..])
            && Final(cfg.n, taken, pt.channel[1..]) == Final(cfg.n, pt.taken, pt.channel)
  {
    ReceiveHolds(cfg.n, p, pt.msgs, pt.taken, pt.taken.Rounds(), pt.channel[0]);
  }

  /** The message completes no group. */
  lemma TakeIdle(cfg: Config, p: nat, pt: Party)
    requires Session(cfg.n, p) && StreamsOk(cfg, p, pt) && pt.channel != []
    requires Next(cfg.n, pt.taken, pt.channel[0]).Rounds() == pt.taken.Rounds()
    ensures var pt' := TakeParty(cfg, pt);
            && StreamsOk(cfg, p, pt') && pt'.msgs == Receive(pt.msgs, pt.channel[0])
            && pt'.phase == pt.phase && TakeAcks(cfg, p, pt) == map[]
            && pt'.taken == Next(cfg.n, pt.taken, pt.channel[0])
  {
    hide UpToDate, Holds;
    TakeReceives(cfg, p, pt);
    NothingReady(cfg.n, p, Receive(pt.msgs, pt.channel[0]), Next(cfg.n, pt.taken, pt.channel[0]));
  }

  lemma OneEachDistinct(n: nat, self: nat, id: nat, v: seq<EchoMessage>)
    requires OneEach(n, self, id, v)
    ensures FirstDuplicate(v, {}).None?
  {
    NoDuplicateIffDistinct(v, {});
  }

  /** The message completes the group of the next round in order. */
  lemma TakeStart(cfg: Config, p: nat, pt: Party)
    requires Session(cfg.n, p) && StreamsOk(cfg, p, pt) && pt.channel != []
    requires Next(cfg.n, pt.taken, pt.channel[0]).Rounds() != pt.taken.Rounds()
    ensures var id := pt.taken.Rounds();
            var msgs := Receive(pt.msgs, pt.channel[0]);
            var pt' := TakeParty(cfg, pt);
            && id in msgs && OneEach(cfg.n, p, id, SortBySender(msgs[id]))
            && StreamsOk(cfg, p, pt') && pt'.msgs == msgs - {id} && pt'.taken.Rounds() == id + 1
            && pt'.phase == Comparing(id, GroupHash(msgs[id], cfg.hash))
            && TakeAcks(cfg, p, pt) ==
               AcksFor(p, msgs[id], id, GroupHash(msgs[id], cfg.hash))
  {
    hide UpToDate, Holds, GroupHash, AcksFor, Distinct, Fed, Final, Receive, OneEach, SortBySender, FirstReady, Next;
    var n, id, e := cfg.n, pt.taken.Rounds(), pt.channel[0];
    var msgs, taken := Receive(pt.msgs, e), Next(cfg.n, pt.taken, e);
    TakeReceives(cfg, p, pt);
    StartHolds(n, p, msgs, taken, id);
    ReadyIff(n, p, msgs, taken, id, id);
    FullGroup(n, p, msgs[id], id);
    OneEachDistinct(n, p, id, SortBySender(msgs[id]));
  }

  /** Taking a message either leaves every group incomplete, or starts the next round in order. */
  lemma TakeOutcome(cfg: Config, p: nat, pt: Party)
    requires Session(cfg.n, p) && PartyOk(cfg, p, pt) && pt.channel != []
    ensures var id := pt.taken.Rounds();
            var pt' := TakeParty(cfg, pt);
            var acks := TakeAcks(cfg, p, pt);
            && StreamsOk(cfg, p, pt')
            && (forall m: nat, e :: m in pt'.msgs && e in pt'.msgs[m] ==> Genuine(p, pt.own, pt.seen, pt.inbox.next, e))
            && if pt'.taken.Rounds() == id then pt'.phase == pt.phase && acks == map[]
               else
                 && pt'.taken.Rounds() == id + 1
                 && pt'.phase == Comparing(id, Digest(cfg, VectorOf(cfg, p, pt.own, pt.seen, id)))
                 && acks.Keys == (set k | k in Others(cfg.n, p) :: Link(p, k, id))
                 && forall l :: l in acks ==> acks[l] == Digest(cfg, VectorOf(cfg, p, pt.own, pt.seen, id))
  {
    hide StreamsOk, GroupHash, VectorOf, Genuine, TakeParty, TakeAcks;
    var id, msgs := pt.taken.Rounds(), Receive(pt.msgs, pt.channel[0]);
    ReceivedGenuine(p, pt);
    if Next(cfg.n, pt.taken, pt.channel[0]).Rounds() == id {
      TakeIdle(cfg, p, pt);
    } else {
      TakeStart(cfg, p, pt);
      GroupVector(cfg, p, pt, msgs[id], id);
      GroupLinks(cfg, p, msgs[id], id);
    }
  }

  lemma ReceivedGenuine(p: nat, pt: Party)
    requires MessagesOk(p, pt) && pt.channel != []
    ensures var msgs := Receive(pt.msgs, pt.channel[0]);
            forall m: nat, e :: m in msgs && e in msgs[m] ==> Genuine(p, pt.own, pt.seen, pt.inbox.next, e)
  {
    var msgs := Receive(pt.msgs, pt.channel[0]);
    forall m: nat, e | m in msgs && e in msgs[m] ensures Genuine(p, pt.own, pt.seen, pt.inbox.next, e) {
      if m == pt.channel[0].id && e != pt.channel[0] {
        assert e in Held(pt.msgs, m);
      }
    }
  }

  lemma TakeKeeps(cfg: Config, pt: Party)
    requires pt.channel != []
    ensures var pt' := TakeParty(cfg, pt);
            && pt'.own == pt.own && pt'.seen == pt.seen && pt'.inbox == pt.inbox && pt'.confirmed == pt.confirmed
            && pt'.channel == pt.channel[1..]
  {
  }

  lemma PartyTakes(cfg: Config, p: nat, pt: Party)
    requires Session(cfg.n, p) && PartyOk(cfg, p, pt) && pt.channel != [] && pt.phase == Collecting
    ensures PartyOk(cfg, p, TakeParty(cfg, pt))
  {
    TakeOutcome(cfg, p, pt);
    TakeKeeps(cfg, pt);
    hide StreamsOk, Genuine, VectorOf, TakeParty, Digest;
  }

  // ---- The invariant of the system ----

  /** Rounds that p has hashed and acknowledged. */
  function Started(s: System, p: nat): nat
    requires p in s.parties
  {
    s.parties[p].taken.Rounds()
  }

  function Vector(cfg: Config, s: System, p: nat, id: nat): seq<Bytes>
    requires p in s.parties
  {
    VectorOf(cfg, p, s.parties[p].own, s.parties[p].seen, id)
  }

  predicate IsLink(cfg: Config, l: Link) {
    l.to in UpTo(cfg.n) && l.from in Others(cfg.n, l.to)
  }

  ghost predicate PartiesOk(cfg: Config, s: System)
    requires cfg.n >= 2
  {
    && s.parties.Keys == UpTo(cfg.n)
    && forall p :: p in s.parties ==> PartyOk(cfg, p, s.parties[p])
  }

  /** Copies exist for exactly the broadcasts made; one is seen exactly when it left the network. */
  ghost predicate WireOk(cfg: Config, s: System)
    requires s.parties.Keys == UpTo(cfg.n)
  {
    && (forall l :: l in s.wire <==> IsLink(cfg, l) && l.id < |s.parties[l.from].own|)
    && s.flight <= s.wire.Keys
    && (forall l :: l in s.wire && l !in s.flight ==> (l.from, l.id) in s.parties[l.to].seen)
  }

  /** A party has acknowledged exactly the rounds it started, with its own digest. */
  ghost predicate AcksOk(cfg: Config, s: System)
    requires s.parties.Keys == UpTo(cfg.n)
  {
    && (forall l :: l in s.acks <==> IsLink(cfg, l) && l.id < Started(s, l.from))
    && (forall l :: l in s.acks ==> s.acks[l] == Digest(cfg, Vector(cfg, s, l.from, l.id)))
  }

  ghost predicate RepliesOk(cfg: Config, s: System)
    requires s.parties.Keys == UpTo(cfg.n)
  {
    && (forall l :: l in s.replies ==> IsLink(cfg, l))
    && (forall l :: l in s.replies && s.replies[l].Some? ==> l in s.acks && s.acks[l] == s.replies[l].value)
  }

  /** A confirmed round was acknowledged by everyone with this party's digest. */
  ghost predicate ConfirmedOk(cfg: Config, s: System)
    requires s.parties.Keys == UpTo(cfg.n)
  {
    forall l :: IsLink(cfg, l) && l.id < s.parties[l.to].confirmed ==>
      l in s.acks && s.acks[l] == Digest(cfg, Vector(cfg, s, l.to, l.id))
  }

  ghost predicate Inv(cfg: Config, s: System)
    requires cfg.n >= 2
  {
    PartiesOk(cfg, s) && WireOk(cfg, s) && AcksOk(cfg, s) && RepliesOk(cfg, s) && ConfirmedOk(cfg, s)
  }

  lemma InitialInv(cfg: Config)
    requires cfg.n >= 2
    ensures Inv(cfg, Initial(cfg))
  {
    forall p | p in UpTo(cfg.n) ensures PartyOk(cfg, p, FRESH) {
      assert Remote(cfg.n, p, if p == 1 then 2 else 1);
      RemotesAre(cfg.n, p);
    }
  }

  /** Digests of started and of confirmed rounds stay while parties go on. */
  lemma DigestsStable(cfg: Config, s: System, s': System, p: nat, id: nat)
    requires cfg.n >= 2 && PartiesOk(cfg, s) && p in s.parties && p in s'.parties
    requires Keeps(s.parties[p], s'.parties[p]) && id < Started(s, p)
    ensures Vector(cfg, s', p, id) == Vector(cfg, s, p, id)
  {
    hide StreamsOk, MessagesOk, PhaseOk, Settled, Keeps;
    assert PartyOk(cfg, p, s.parties[p]);
    StartedSettled(cfg, p, s.parties[p], id);
    VectorStable(cfg, p, s.parties[p], s'.parties[p], id);
  }

  lemma ConfirmedStarted(cfg: Config, s: System, p: nat)
    requires cfg.n >= 2 && PartiesOk(cfg, s) && p in s.parties
    ensures s.parties[p].confirmed <= Started(s, p)
  {
    assert PartyOk(cfg, p, s.parties[p]);
  }

  /** What a step does to the other conjuncts when rounds, acknowledgements and replies stay. */
  lemma DigestFrame(cfg: Config, s: System, s': System)
    requires cfg.n >= 2 && Inv(cfg, s) && s'.parties.Keys == s.parties.Keys
    requires s'.acks == s.acks && s'.replies == s.replies
    requires forall p :: p in s.parties ==>
               && Keeps(s.parties[p], s'.parties[p])
               && Started(s', p) == Started(s, p) && s'.parties[p].confirmed == s.parties[p].confirmed
    ensures AcksOk(cfg, s') && RepliesOk(cfg, s') && ConfirmedOk(cfg, s')
  {
    hide Digest, Vector, PartyOk, WireOk, Keeps;
    forall l | l in s.acks ensures Vector(cfg, s', l.from, l.id) == Vector(cfg, s, l.from, l.id) {
      DigestsStable(cfg, s, s', l.from, l.id);
    }
    forall l | IsLink(cfg, l) && l.id < s.parties[l.to].confirmed
      ensures Vector(cfg, s', l.to, l.id) == Vector(cfg, s, l.to, l.id)
    {
      ConfirmedStarted(cfg, s, l.to);
      DigestsStable(cfg, s, s', l.to, l.id);
    }
  }

  lemma BroadcastWire(cfg: Config, s: System, p: nat, body: Bytes, copies: map<nat, Bytes>)
    requires cfg.n >= 2 && s.parties.Keys == UpTo(cfg.n) && WireOk(cfg, s)
    requires Enabled(cfg, s, Broadcast(p, body, copies))
    ensures var s' := Apply(cfg, s, Broadcast(p, body, copies)); WireOk(cfg, s')
  {
    var s' := Apply(cfg, s, Broadcast(p, body, copies));
    var id := |s.parties[p].own|;
    forall l ensures l in s'.wire <==> IsLink(cfg, l) && l.id < |s'.parties[l.from].own| {
      assert l.from == p && l.id == id && IsLink(cfg, l) ==> l == Link(p, l.to, id) && l.to in copies;
    }
  }

  lemma BroadcastInv(cfg: Config, s: System, p: nat, body: Bytes, copies: map<nat, Bytes>)
    requires cfg.n >= 2 && Inv(cfg, s) && Enabled(cfg, s, Broadcast(p, body, copies))
    ensures Inv(cfg, Apply(cfg, s, Broadcast(p, body, copies)))
  {
    hide PartyOk, StreamsOk, MessagesOk, PhaseOk;
    var s' := Apply(cfg, s, Broadcast(p, body, copies));
    BroadcastWire(cfg, s, p, body, copies);
    PartyBroadcasts(cfg, p, s.parties[p], body);
    OnePartyChanged(cfg, s, s', p);
    DigestFrame(cfg, s, s');
  }

  /** Whether or not its block was handed out before, a copy that arrived has been seen. */
  lemma ArrivedSeen(cfg: Config, pt: Party, link: Link, body: Bytes)
    requires Session(cfg.n, link.to) && StreamsOk(cfg, link.to, pt) && link.from in Others(cfg.n, link.to)
    ensures (link.from, link.id) in DeliverParty(cfg, pt, link, body).seen
    ensures pt.seen.Keys <= DeliverParty(cfg, pt, link, body).seen.Keys
  {
    hide Holds, Fed, Final, Accept, Suffix;
    assert Remote(cfg.n, link.to, link.from);
    assert link.id < pt.inbox.next ==> Complete(pt.seen, link.id, cfg.n, link.to);
  }

  lemma DeliverWire(cfg: Config, s: System, link: Link)
    requires cfg.n >= 2 && PartiesOk(cfg, s) && WireOk(cfg, s) && Enabled(cfg, s, Deliver(link))
    ensures WireOk(cfg, Apply(cfg, s, Deliver(link)))
  {
    hide StreamsOk, PhaseOk, MessagesOk, Accept, Note, Suffix;
    assert IsLink(cfg, link);
    assert PartyOk(cfg, link.to, s.parties[link.to]);
    ArrivedSeen(cfg, s.parties[link.to], link, s.wire[link]);
  }

  lemma DeliverInv(cfg: Config, s: System, link: Link)
    requires cfg.n >= 2 && Inv(cfg, s) && Enabled(cfg, s, Deliver(link))
    ensures Inv(cfg, Apply(cfg, s, Deliver(link)))
  {
    hide PartyOk, StreamsOk, MessagesOk, PhaseOk, DeliverParty, Keeps;
    var s' := Apply(cfg, s, Deliver(link));
    DeliverWire(cfg, s, link);
    assert IsLink(cfg, link);
    ArrivalInv(cfg, s, s', link, s.wire[link]);
  }

  lemma ResendInv(cfg: Config, s: System, link: Link, body: Bytes)
    requires cfg.n >= 2 && Inv(cfg, s) && Enabled(cfg, s, Resend(link, body))
    ensures Inv(cfg, Apply(cfg, s, Resend(link, body)))
  {
    hide PartyOk, StreamsOk, MessagesOk, PhaseOk, Keeps;
    var s' := Apply(cfg, s, Resend(link, body));
    ResendWire(cfg, s, link, body);
    ArrivalInv(cfg, s, s', link, body);
  }

  lemma ResendWire(cfg: Config, s: System, link: Link, body: Bytes)
    requires cfg.n >= 2 && PartiesOk(cfg, s) && WireOk(cfg, s) && Enabled(cfg, s, Resend(link, body))
    ensures WireOk(cfg, Apply(cfg, s, Resend(link, body)))
  {
    hide StreamsOk, PhaseOk, MessagesOk, Accept, Note, Suffix;
    assert PartyOk(cfg, link.to, s.parties[link.to]);
    ArrivedSeen(cfg, s.parties[link.to], link, body);
  }

  /** A copy arrives, whichever it is. */
  lemma ArrivalInv(cfg: Config, s: System, s': System, link: Link, body: Bytes)
    requires cfg.n >= 2 && Inv(cfg, s) && IsLink(cfg, link)
    requires s'.parties == s.parties[link.to := DeliverParty(cfg, s.parties[link.to], link, body)]
    requires s'.acks == s.acks && s'.replies == s.replies && WireOk(cfg, s')
    ensures Inv(cfg, s')
  {
    hide PartyOk, WireOk, AcksOk, RepliesOk, ConfirmedOk;
    PartyAccepts(cfg, s.parties[link.to], link, body);
    OnePartyChanged(cfg, s, s', link.to);
    DigestFrame(cfg, s, s');
  }

  lemma OnePartyChanged(cfg: Config, s: System, s': System, p: nat)
    requires cfg.n >= 2 && PartiesOk(cfg, s) && p in s.parties && p in s'.parties
    requires s'.parties == s.parties[p := s'.parties[p]] && PartyOk(cfg, p, s'.parties[p])
    ensures PartiesOk(cfg, s')
  {
  }

  /** The acknowledgements after a step that starts at most one more round of p. */
  ghost predicate MoreAcks(cfg: Config, s: System, s': System, p: nat)
    requires p in s.parties && p in s'.parties
  {
    && Started(s, p) <= Started(s', p)
    && (forall l :: l in s'.acks <==>
          l in s.acks || (IsLink(cfg, l) && l.from == p && Started(s, p) <= l.id < Started(s', p)))
    && (forall l :: l in s.acks ==> s'.acks[l] == s.acks[l])
    && (forall l :: l in s'.acks && l !in s.acks ==> s'.acks[l] == Digest(cfg, Vector(cfg, s, p, l.id)))
  }

  /** Only p has changed, and not in what it sent and saw. */
  ghost predicate OnlyTook(s: System, s': System, p: nat)
    requires s.parties.Keys == s'.parties.Keys && p in s.parties
  {
    && (forall q :: q in s.parties && q != p ==> s'.parties[q] == s.parties[q])
    && s'.parties[p].own == s.parties[p].own && s'.parties[p].seen == s.parties[p].seen
    && s'.parties[p].confirmed == s.parties[p].confirmed
  }

  lemma TookSame(cfg: Config, s: System, s': System, p: nat, q: nat, id: nat)
    requires s.parties.Keys == s'.parties.Keys && p in s.parties && OnlyTook(s, s', p) && q in s.parties
    ensures Vector(cfg, s', q, id) == Vector(cfg, s, q, id) && s'.parties[q].confirmed == s.parties[q].confirmed
    ensures q != p ==> Started(s', q) == Started(s, q)
  {
    hide VectorOf;
  }

  lemma TakeAcksOk(cfg: Config, s: System, s': System, p: nat)
    requires cfg.n >= 2 && s.parties.Keys == s'.parties.Keys == UpTo(cfg.n) && p in s.parties
    requires AcksOk(cfg, s) && OnlyTook(s, s', p) && MoreAcks(cfg, s, s', p)
    ensures AcksOk(cfg, s')
  {
    hide Digest, Vector, Started, OnlyTook;
    forall q, id: nat | q in s.parties ensures Vector(cfg, s', q, id) == Vector(cfg, s, q, id) {
      TookSame(cfg, s, s', p, q, id);
    }
    forall q | q in s.parties && q != p ensures Started(s', q) == Started(s, q) {
      TookSame(cfg, s, s', p, q, 0);
    }
  }

  lemma TakeConfirmedOk(cfg: Config, s: System, s': System, p: nat)
    requires cfg.n >= 2 && s.parties.Keys == s'.parties.Keys == UpTo(cfg.n) && p in s.parties
    requires RepliesOk(cfg, s) && ConfirmedOk(cfg, s) && OnlyTook(s, s', p) && MoreAcks(cfg, s, s', p)
    requires s'.replies == s.replies
    ensures RepliesOk(cfg, s') && ConfirmedOk(cfg, s')
  {
    hide Digest, Vector, Started, OnlyTook;
    forall l | IsLink(cfg, l) && l.id < s'.parties[l.to].confirmed
      ensures l in s'.acks && s'.acks[l] == Digest(cfg, Vector(cfg, s', l.to, l.id))
    {
      TookSame(cfg, s, s', p, l.to, l.id);
    }
  }

  lemma TakeNewAcks(cfg: Config, s: System, s': System, p: nat)
    requires cfg.n >= 2 && PartiesOk(cfg, s) && AcksOk(cfg, s) && p in s.parties && s.parties[p].channel != []
    requires p in s'.parties && s'.parties[p] == TakeParty(cfg, s.parties[p])
    requires s'.acks == s.acks + TakeAcks(cfg, p, s.parties[p])
    ensures MoreAcks(cfg, s, s', p)
  {
    hide PartyOk, TakeParty, TakeAcks, Genuine, StreamsOk, VectorOf, Digest;
    var pt := s.parties[p];
    assert PartyOk(cfg, p, pt);
    TakeOutcome(cfg, p, pt);
    var acks, id := TakeAcks(cfg, p, pt), Started(s, p);
    if Started(s', p) == id {
      assert s'.acks == s.acks;
    } else {
      forall l ensures l in acks <==> IsLink(cfg, l) && l.from == p && l.id == id {
        AckLink(cfg, p, id, l);
      }
    }
    hide Vector;
  }

  /** The links from p for round id, one to each other party. */
  lemma AckLink(cfg: Config, p: nat, id: nat, l: Link)
    requires p in UpTo(cfg.n)
    ensures l in (set k | k in Others(cfg.n, p) :: Link(p, k, id)) <==> IsLink(cfg, l) && l.from == p && l.id == id
  {
    assert l.from == p && l.id == id ==> l == Link(p, l.to, id);
  }

  lemma TakeInv(cfg: Config, s: System, p: nat)
    requires cfg.n >= 2 && Inv(cfg, s) && Enabled(cfg, s, Take(p))
    ensures Inv(cfg, Apply(cfg, s, Take(p)))
  {
    hide PartyOk, StreamsOk, MessagesOk, PhaseOk, TakeParty, TakeAcks, VectorOf, Genuine;
    var s' := Apply(cfg, s, Take(p));
    PartyTakes(cfg, p, s.parties[p]);
    OnePartyChanged(cfg, s, s', p);
    TakeNewAcks(cfg, s, s', p);
    TakeKeeps(cfg, s.parties[p]);
    TakeAcksOk(cfg, s, s', p);
    TakeConfirmedOk(cfg, s, s', p);
    WireFrame(cfg, s, s');
  }

  lemma WireFrame(cfg: Config, s: System, s': System)
    requires s.parties.Keys == s'.parties.Keys == UpTo(cfg.n) && WireOk(cfg, s)
    requires s'.wire == s.wire && s'.flight == s.flight
    requires forall q :: q in s.parties ==>
        s'.parties[q].own == s.parties[q].own && s'.parties[q].seen == s.parties[q].seen
    ensures WireOk(cfg, s')
  {
  }

  lemma ReplyInv(cfg: Config, s: System, link: Link, reply: Option<Bytes>)
    requires cfg.n >= 2 && Inv(cfg, s) && IsLink(cfg, link)
    requires reply.Some? ==> link in s.acks && s.acks[link] == reply.value
    ensures Inv(cfg, s.(replies := s.replies[link := reply]))
  {
    hide PartyOk, StreamsOk, MessagesOk, PhaseOk;
    var s' := s.(replies := s.replies[link := reply]);
    OnePartyChanged(cfg, s, s', link.to);
    WireFrame(cfg, s, s');
    ReplyDigests(cfg, s, link, reply);
  }

  lemma ReplyDigests(cfg: Config, s: System, link: Link, reply: Option<Bytes>)
    requires cfg.n >= 2 && s.parties.Keys == UpTo(cfg.n) && IsLink(cfg, link)
    requires AcksOk(cfg, s) && RepliesOk(cfg, s) && ConfirmedOk(cfg, s)
    requires reply.Some? ==> link in s.acks && s.acks[link] == reply.value
    ensures var s' := s.(replies := s.replies[link := reply]);
            AcksOk(cfg, s') && RepliesOk(cfg, s') && ConfirmedOk(cfg, s')
  {
    var s' := s.(replies := s.replies[link := reply]);
    forall q, id | q in s.parties ensures Vector(cfg, s', q, id) == Vector(cfg, s, q, id) {
    }
  }

  /** The links into p for its broadcast id, one from each other party. */
  function LinksTo(n: nat, p: nat, id: nat): (r: set<Link>)
    ensures forall l :: l in r <==> l.from in Others(n, p) && l.to == p && l.id == id
    ensures |r| == if 1 <= p <= n then n - 1 else n
  {
    if n == 0 then {} else LinksTo(n - 1, p, id) + if n == p then {} else {Link(n, p, id)}
  }

  /** n - 1 replies are a reply from every other party. */
  lemma AllReplied(cfg: Config, s: System, p: nat, id: nat)
    requires cfg.n >= 2 && s.parties.Keys == UpTo(cfg.n) && RepliesOk(cfg, s) && p in s.parties
    ensures |RepliesTo(s, p, id)| == cfg.n - 1 <==> forall q :: q in Others(cfg.n, p) ==> Link(q, p, id) in s.replies
  {
    var all, got := LinksTo(cfg.n, p, id), RepliesTo(s, p, id);
    assert got <= all by {
      assert forall l :: l in got ==> IsLink(cfg, l);
    }
    if |got| == cfg.n - 1 {
      SubsetCount(got, all);
    }
    if forall q :: q in Others(cfg.n, p) ==> Link(q, p, id) in s.replies {
      assert forall l :: l in all ==> l == Link(l.from, p, id);
      assert got == all;
    }
  }

  /** Comparing hashes changes neither payloads nor what has been started. */
  lemma CompareFrame(cfg: Config, s: System, p: nat, q: nat, id: nat)
    requires cfg.n >= 2 && s.parties.Keys == UpTo(cfg.n) && Enabled(cfg, s, Compare(p)) && q in s.parties
    ensures var s' := Apply(cfg, s, Compare(p));
            && s'.acks == s.acks && s'.replies == s.replies && s'.parties.Keys == s.parties.Keys
            && Started(s', q) == Started(s, q) && Vector(cfg, s', q, id) == Vector(cfg, s, q, id)
  {
    hide VectorOf, AllAgree;
  }

  lemma CompareAcks(cfg: Config, s: System, p: nat)
    requires cfg.n >= 2 && s.parties.Keys == UpTo(cfg.n) && Enabled(cfg, s, Compare(p))
    requires AcksOk(cfg, s) && RepliesOk(cfg, s)
    ensures AcksOk(cfg, Apply(cfg, s, Compare(p))) && RepliesOk(cfg, Apply(cfg, s, Compare(p)))
  {
    hide Digest, Vector, Started, Apply;
    var s' := Apply(cfg, s, Compare(p));
    CompareFrame(cfg, s, p, p, 0);
    forall q | q in s.parties ensures Started(s', q) == Started(s, q) {
      CompareFrame(cfg, s, p, q, 0);
    }
    forall q, id: nat | q in s.parties ensures Vector(cfg, s', q, id) == Vector(cfg, s, q, id) {
      CompareFrame(cfg, s, p, q, id);
    }
  }

  lemma CompareOne(cfg: Config, s: System, p: nat, l: Link)
    requires cfg.n >= 2 && s.parties.Keys == UpTo(cfg.n) && Enabled(cfg, s, Compare(p))
    requires RepliesOk(cfg, s) && ConfirmedOk(cfg, s) && PhaseOk(cfg, p, s.parties[p])
    requires IsLink(cfg, l) && l.id < Apply(cfg, s, Compare(p)).parties[l.to].confirmed
    ensures l in s.acks && s.acks[l] == Digest(cfg, Vector(cfg, s, l.to, l.id))
  {
    hide Digest, VectorOf;
    var id := s.parties[p].phase.id;
    AllReplied(cfg, s, p, id);
    if l.to == p && l.id == id {
      assert l == Link(l.from, p, id) && l in RepliesTo(s, p, id);
    }
  }

  lemma CompareDigests(cfg: Config, s: System, p: nat)
    requires cfg.n >= 2 && s.parties.Keys == UpTo(cfg.n) && Enabled(cfg, s, Compare(p))
    requires AcksOk(cfg, s) && RepliesOk(cfg, s) && ConfirmedOk(cfg, s)
    requires PhaseOk(cfg, p, s.parties[p])
    ensures var s' := Apply(cfg, s, Compare(p));
            AcksOk(cfg, s') && RepliesOk(cfg, s') && ConfirmedOk(cfg, s')
  {
    CompareAcks(cfg, s, p);
    hide Digest, Vector, Apply, AcksOk, RepliesOk, PhaseOk, Enabled;
    var s' := Apply(cfg, s, Compare(p));
    CompareFrame(cfg, s, p, p, 0);
    forall l | IsLink(cfg, l) && l.id < s'.parties[l.to].confirmed
      ensures l in s'.acks && s'.acks[l] == Digest(cfg, Vector(cfg, s', l.to, l.id))
    {
      CompareOne(cfg, s, p, l);
      CompareFrame(cfg, s, p, l.to, l.id);
    }
  }

  lemma PartyCompares(cfg: Config, p: nat, pt: Party)
    requires Session(cfg.n, p) && PartyOk(cfg, p, pt) && pt.phase.Comparing?
    ensures PhaseOk(cfg, p, pt)
    ensures PartyOk(cfg, p, pt.(phase := Stopped))
    ensures PartyOk(cfg, p, pt.(confirmed := pt.confirmed + 1, phase := Collecting))
  {
  }

  lemma CompareInv(cfg: Config, s: System, p: nat)
    requires cfg.n >= 2 && Inv(cfg, s) && Enabled(cfg, s, Compare(p))
    ensures Inv(cfg, Apply(cfg, s, Compare(p)))
  {
    hide PartyOk, PhaseOk, AcksOk, RepliesOk, ConfirmedOk;
    var s' := Apply(cfg, s, Compare(p));
    PartyCompares(cfg, p, s.parties[p]);
    OnePartyChanged(cfg, s, s', p);
    CompareDigests(cfg, s, p);
    WireFrame(cfg, s, s');
  }

  lemma StepInv(cfg: Config, s: System, a: Action)
    requires cfg.n >= 2 && Inv(cfg, s) && Enabled(cfg, s, a)
    ensures Inv(cfg, Apply(cfg, s, a))
  {
    hide PartyOk, WireOk, RepliesOk, ConfirmedOk, Digest, Vector;
    hide BroadcastParty, DeliverParty, TakeParty, TakeAcks, AllAgree;
    match a
    case Broadcast(p, body, copies) => BroadcastInv(cfg, s, p, body, copies);
    case Deliver(link) => DeliverInv(cfg, s, link);
    case Resend(link, body) => ResendInv(cfg, s, link, body);
    case Take(p) => TakeInv(cfg, s, p);
    case Answer(link) => ReplyInv(cfg, s, link, Some(s.acks[link]));
    case Lose(link) => ReplyInv(cfg, s, link, None);
    case Compare(p) => CompareInv(cfg, s, p);
  }

  /** The invariant holds after every run. */
  lemma {:induction false} RunInv(cfg: Config, actions: seq<Action>)
    requires cfg.n >= 2 && Exec(cfg, actions).Some?
    ensures Inv(cfg, Exec(cfg, actions).value)
  {
    if actions == [] {
      InitialInv(cfg);
    } else {
      RunInv(cfg, actions[..|actions| - 1]);
      StepInv(cfg, Exec(cfg, actions[..|actions| - 1]).value, actions[|actions| - 1]);
    }
  }

  // ---- Echo agreement ----

  ghost predicate Injective(hash: Bytes -> Bytes) {
    forall x, y :: hash(x) == hash(y) ==> x == y
  }

  /** If one party confirms a round, every party hashed the same bytes for it. */
  lemma SameBytesHashed(cfg: Config, actions: seq<Action>, p: nat, q: nat, id: nat)
    requires cfg.n >= 2 && Exec(cfg, actions).Some? && Injective(cfg.hash)
    requires p in UpTo(cfg.n) && q in UpTo(cfg.n)
    requires id < Exec(cfg, actions).value.parties[p].confirmed
    ensures var s := Exec(cfg, actions).value;
            id < Started(s, q) && Concat(Vector(cfg, s, q, id)) == Concat(Vector(cfg, s, p, id))
  {
    RunInv(cfg, actions);
    var s := Exec(cfg, actions).value;
    if q == p {
      ConfirmedStarted(cfg, s, p);
    } else {
      assert IsLink(cfg, Link(q, p, id));
    }
  }

  /**
    Echo agreement: in every run, whatever copies senders gave to whom and how often, once one party 
    has confirmed a round all n parties have hashed the same sender-indexed vector for it, provided
    the bodies of that round are data items.
  */
  lemma EchoAgreement(cfg: Config, actions: seq<Action>, p: nat, q: nat, id: nat)
    requires cfg.n >= 2 && Exec(cfg, actions).Some? && Injective(cfg.hash)
    requires p in UpTo(cfg.n) && q in UpTo(cfg.n)
    requires id < Exec(cfg, actions).value.parties[p].confirmed
    requires AllItems(Vector(cfg, Exec(cfg, actions).value, p, id))
    requires AllItems(Vector(cfg, Exec(cfg, actions).value, q, id))
    ensures var s := Exec(cfg, actions).value;
            id < Started(s, q) && Vector(cfg, s, q, id) == Vector(cfg, s, p, id)
  {
    SameBytesHashed(cfg, actions, p, q, id);
    var s := Exec(cfg, actions).value;
    ConcatInjective(Vector(cfg, s, q, id), Vector(cfg, s, p, id));
  }

  // ---- Deadlock freedom under faithful delivery ----

  /** Everyone is sent the same body once, and no request fails. */
  predicate Faithful(a: Action) {
    match a
    case Broadcast(p, body, copies) => forall q :: q in copies ==> copies[q] == body
    case Resend(_, _) => false
    case Lose(link) => false
    case _ => true
  }

  /** A copy is what its sender broadcast. */
  ghost predicate Sent(s: System, from: nat, id: nat, body: Bytes) {
    from in s.parties && id < |s.parties[from].own| && body == s.parties[from].own[id]
  }

  ghost predicate CopiesOk(s: System) {
    && (forall l :: l in s.wire ==> Sent(s, l.from, l.id, s.wire[l]))
    && (forall p, k :: p in s.parties && k in s.parties[p].seen ==> Sent(s, k.0, k.1, s.parties[p].seen[k]))
  }

  ghost predicate FaithOk(s: System) {
    && CopiesOk(s)
    && (forall l :: l in s.replies ==> s.replies[l].Some?)
    && (forall p :: p in s.parties ==> s.parties[p].phase != Stopped)
  }

  /** Under faithful delivery, two parties that started a round have the same vector for it. */
  lemma FaithfulVectors(cfg: Config, s: System, p: nat, q: nat, id: nat)
    requires cfg.n >= 2 && PartiesOk(cfg, s) && CopiesOk(s) && p in s.parties && q in s.parties
    requires id < Started(s, p) && id < Started(s, q)
    ensures Vector(cfg, s, p, id) == Vector(cfg, s, q, id)
  {
    hide StreamsOk, MessagesOk, PhaseOk;
    StartedSettled(cfg, p, s.parties[p], id);
    StartedSettled(cfg, q, s.parties[q], id);
    var v, w := Vector(cfg, s, p, id), Vector(cfg, s, q, id);
    forall k | 0 <= k < cfg.n ensures v[k] == w[k] {
      assert k + 1 != p ==> k + 1 in Others(cfg.n, p) && (k + 1, id) in s.parties[p].seen;
      assert k + 1 != q ==> k + 1 in Others(cfg.n, q) && (k + 1, id) in s.parties[q].seen;
    }
  }

  /** So a comparison never fails. */
  lemma FaithfulCompare(cfg: Config, s: System, p: nat, id: nat, h: Bytes)
    requires cfg.n >= 2 && PartiesOk(cfg, s) && AcksOk(cfg, s) && RepliesOk(cfg, s) && FaithOk(s)
    requires p in s.parties && s.parties[p].phase == Comparing(id, h)
    ensures AllAgree(s, p, id, h)
  {
    hide StreamsOk, MessagesOk, VectorOf, CopiesOk;
    assert PartyOk(cfg, p, s.parties[p]);
    forall l | l in RepliesTo(s, p, id) ensures s.replies[l] == Some(h) {
      assert IsLink(cfg, l) && l in s.acks;
      FaithfulVectors(cfg, s, p, l.from, id);
    }
  }

  lemma SentStays(s: System, s': System, from: nat, id: nat, body: Bytes)
    requires Sent(s, from, id, body) && from in s'.parties && s.parties[from].own <= s'.parties[from].own
    ensures Sent(s', from, id, body)
  {
  }

  lemma FaithfulBroadcast(cfg: Config, s: System, p: nat, body: Bytes, copies: map<nat, Bytes>)
    requires cfg.n >= 2 && s.parties.Keys == UpTo(cfg.n) && CopiesOk(s)
    requires Enabled(cfg, s, Broadcast(p, body, copies)) && Faithful(Broadcast(p, body, copies))
    ensures CopiesOk(Apply(cfg, s, Broadcast(p, body, copies)))
  {
    hide Sent;
    var s' := Apply(cfg, s, Broadcast(p, body, copies));
    forall q | q in s.parties ensures s.parties[q].own <= s'.parties[q].own && s'.parties[q].seen == s.parties[q].seen {
    }
    forall l | l in s'.wire ensures Sent(s', l.from, l.id, s'.wire[l]) {
      if l in s.wire && s'.wire[l] == s.wire[l] {
        assert Sent(s, l.from, l.id, s.wire[l]);
        SentFrom(s, l.from, l.id, s.wire[l]);
        SentStays(s, s', l.from, l.id, s.wire[l]);
      } else {
        JustSent(s', p, body, |s.parties[p].own|);
      }
    }
    forall q, k | q in s'.parties && k in s'.parties[q].seen ensures Sent(s', k.0, k.1, s'.parties[q].seen[k]) {
      assert Sent(s, k.0, k.1, s.parties[q].seen[k]);
      SentFrom(s, k.0, k.1, s.parties[q].seen[k]);
      SentStays(s, s', k.0, k.1, s.parties[q].seen[k]);
    }
  }

  lemma SentFrom(s: System, from: nat, id: nat, body: Bytes)
    requires Sent(s, from, id, body)
    ensures from in s.parties
  {
  }

  lemma JustSent(s: System, p: nat, body: Bytes, id: nat)
    requires p in s.parties && id < |s.parties[p].own| && s.parties[p].own[id] == body
    ensures Sent(s, p, id, body)
  {
  }

  lemma FaithfulDeliver(cfg: Config, s: System, link: Link)
    requires cfg.n >= 2 && s.parties.Keys == UpTo(cfg.n) && CopiesOk(s) && Enabled(cfg, s, Deliver(link))
    ensures CopiesOk(Apply(cfg, s, Deliver(link)))
  {
    hide Accept, Suffix;
    var s' := Apply(cfg, s, Deliver(link));
    forall p, k | p in s'.parties && k in s'.parties[p].seen ensures Sent(s', k.0, k.1, s'.parties[p].seen[k]) {
      if k in s.parties[p].seen && s'.parties[p].seen[k] == s.parties[p].seen[k] {
        assert Sent(s, k.0, k.1, s.parties[p].seen[k]);
      } else {
        assert Sent(s, link.from, link.id, s.wire[link]);
      }
    }
  }

  /** A step that sends and delivers nothing. */
  lemma CopiesFrame(s: System, s': System)
    requires CopiesOk(s) && s'.wire == s.wire && s'.parties.Keys == s.parties.Keys
    requires forall p :: p in s.parties ==>
        s'.parties[p].own == s.parties[p].own && s'.parties[p].seen == s.parties[p].seen
    ensures CopiesOk(s')
  {
    forall p, k | p in s'.parties && k in s'.parties[p].seen ensures Sent(s', k.0, k.1, s'.parties[p].seen[k]) {
      assert Sent(s, k.0, k.1, s.parties[p].seen[k]);
    }
  }

  lemma FaithfulTake(cfg: Config, s: System, p: nat)
    requires cfg.n >= 2 && PartiesOk(cfg, s) && FaithOk(s) && Enabled(cfg, s, Take(p))
    ensures FaithOk(Apply(cfg, s, Take(p)))
  {
    hide PartyOk, VectorOf, CopiesOk, Genuine, TakeParty, TakeAcks, StreamsOk;
    TakeOutcome(cfg, p, s.parties[p]);
    TakeKeeps(cfg, s.parties[p]);
    CopiesFrame(s, Apply(cfg, s, Take(p)));
  }

  lemma FaithfulComparing(cfg: Config, s: System, p: nat)
    requires cfg.n >= 2 && Inv(cfg, s) && FaithOk(s) && Enabled(cfg, s, Compare(p))
    ensures FaithOk(Apply(cfg, s, Compare(p)))
  {
    hide PartyOk, WireOk, AcksOk, RepliesOk, ConfirmedOk, CopiesOk, AllAgree;
    FaithfulCompare(cfg, s, p, s.parties[p].phase.id, s.parties[p].phase.hash);
    CopiesFrame(s, Apply(cfg, s, Compare(p)));
  }

  lemma FaithfulStep(cfg: Config, s: System, a: Action)
    requires cfg.n >= 2 && Inv(cfg, s) && FaithOk(s) && Enabled(cfg, s, a) && Faithful(a)
    ensures FaithOk(Apply(cfg, s, a))
  {
    hide PartyOk, AcksOk, RepliesOk, ConfirmedOk, WireOk, CopiesOk, Others;
    hide TakeParty, TakeAcks, AllAgree, Accept, Note, Suffix;
    match a
    case Broadcast(p, body, copies) => FaithfulBroadcast(cfg, s, p, body, copies);
    case Deliver(link) => FaithfulDeliver(cfg, s, link);
    case Take(p) => FaithfulTake(cfg, s, p);
    case Answer(link) => CopiesFrame(s, Apply(cfg, s, a));
    case Compare(p) => FaithfulComparing(cfg, s, p);
  }

  lemma {:induction false} FaithfulRun(cfg: Config, actions: seq<Action>)
    requires cfg.n >= 2 && Exec(cfg, actions).Some?
    requires forall a :: a in actions ==> Faithful(a)
    ensures FaithOk(Exec(cfg, actions).value)
  {
    if actions != [] {
      var init := actions[..|actions| - 1];
      FaithfulRun(cfg, init);
      RunInv(cfg, init);
      FaithfulStep(cfg, Exec(cfg, init).value, actions[|actions| - 1]);
    }
  }

  /** Nothing is left to do but new broadcasts: all copies and acknowledgements are delivered. */
  ghost predicate Quiescent(cfg: Config, s: System) {
    forall a :: Enabled(cfg, s, a) ==> a.Broadcast? || a.Resend? || a.Lose?
  }

  /** In a quiescent state an idle party has received every block that everyone has sent. */
  lemma IdleHasStarted(cfg: Config, s: System, p: nat, id: nat)
    requires cfg.n >= 2 && s.parties.Keys == UpTo(cfg.n) && WireOk(cfg, s) && Quiescent(cfg, s)
    requires p in s.parties && StreamsOk(cfg, p, s.parties[p]) && s.parties[p].phase == Collecting
    requires forall q :: q in s.parties ==> id < |s.parties[q].own|
    ensures id < Started(s, p)
  {
    hide Holds;
    var pt := s.parties[p];
    assert pt.channel == [] by {
      assert pt.channel != [] ==> Enabled(cfg, s, Take(p));
    }
    if pt.inbox.next <= id {
      forall k: nat | Remote(cfg.n, p, k) ensures (k, pt.inbox.next) in pt.seen {
        var l := Link(k, p, pt.inbox.next);
        assert IsLink(cfg, l) && k in s.parties;
        assert l in s.flight ==> Enabled(cfg, s, Deliver(l));
      }
    }
  }

  lemma AllHaveStarted(cfg: Config, s: System, p: nat, id: nat)
    requires cfg.n >= 2 && PartiesOk(cfg, s) && WireOk(cfg, s) && FaithOk(s) && Quiescent(cfg, s) && p in s.parties
    requires forall q :: q in s.parties ==> id < |s.parties[q].own|
    requires id <= s.parties[p].confirmed
    ensures id < Started(s, p)
  {
    hide StreamsOk, MessagesOk, WireOk, Quiescent, Digest, VectorOf;
    assert PartyOk(cfg, p, s.parties[p]);
    if s.parties[p].phase == Collecting {
      IdleHasStarted(cfg, s, p, id);
    }
  }

  /** In a quiescent state nobody waits for a round that everyone has started. */
  lemma NobodyWaits(cfg: Config, s: System, p: nat, id: nat)
    requires cfg.n >= 2 && s.parties.Keys == UpTo(cfg.n) && AcksOk(cfg, s) && RepliesOk(cfg, s)
    requires Quiescent(cfg, s) && p in s.parties
    requires forall q :: q in s.parties ==> id < Started(s, q)
    ensures !(s.parties[p].phase.Comparing? && s.parties[p].phase.id == id)
  {
    hide Digest, VectorOf, Apply;
    forall q | q in Others(cfg.n, p) ensures Link(q, p, id) in s.replies {
      var l := Link(q, p, id);
      assert IsLink(cfg, l) && l in s.acks;
      assert l !in s.replies ==> Enabled(cfg, s, Answer(l));
    }
    AllReplied(cfg, s, p, id);
    assert !Enabled(cfg, s, Compare(p));
  }

  /** The lowest round that everyone broadcast cannot be where a party is stuck. */
  lemma LowestRoundCompletes(cfg: Config, s: System, p: nat, id: nat)
    requires cfg.n >= 2 && Inv(cfg, s) && FaithOk(s) && Quiescent(cfg, s) && p in s.parties
    requires forall q :: q in s.parties ==> id < |s.parties[q].own| && id <= s.parties[q].confirmed
    ensures id < s.parties[p].confirmed
  {
    hide StreamsOk, MessagesOk, WireOk, AcksOk, RepliesOk, ConfirmedOk, Quiescent, Digest, VectorOf;
    forall q | q in s.parties ensures id < Started(s, q) {
      AllHaveStarted(cfg, s, q, id);
    }
    NobodyWaits(cfg, s, p, id);
    assert PartyOk(cfg, p, s.parties[p]);
  }

  lemma {:induction false} QuiescentCompletes(cfg: Config, s: System, p: nat, id: nat)
    requires cfg.n >= 2 && Inv(cfg, s) && FaithOk(s) && Quiescent(cfg, s) && p in s.parties
    requires forall q :: q in s.parties ==> id < |s.parties[q].own|
    ensures id < s.parties[p].confirmed
    decreases id
  {
    hide Inv, FaithOk, Quiescent;
    if id > 0 {
      forall q | q in s.parties ensures id <= s.parties[q].confirmed {
        QuiescentCompletes(cfg, s, q, id - 1);
      }
    }
    LowestRoundCompletes(cfg, s, p, id);
  }

  /**
    Echo deadlock freedom: after any run with faithful delivery, once everything sent has been
    delivered and processed, every party has confirmed every round that all n parties broadcast.
  */
  lemma EchoDeadlockFreedom(cfg: Config, actions: seq<Action>, p: nat, id: nat)
    requires cfg.n >= 2 && Exec(cfg, actions).Some? && p in UpTo(cfg.n)
    requires forall a :: a in actions ==> Faithful(a)
    requires Quiescent(cfg, Exec(cfg, actions).value)
    requires forall q :: q in UpTo(cfg.n) ==> id < |Exec(cfg, actions).value.parties[q].own|
    ensures id < Exec(cfg, actions).value.parties[p].confirmed
  {
    RunInv(cfg, actions);
    FaithfulRun(cfg, actions);
    QuiescentCompletes(cfg, Exec(cfg, actions).value, p, id);
  }
}
