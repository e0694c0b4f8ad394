/**
  The parties of the network model do what the execution and the gadget do: a poll of the execution
  is a broadcast and a delivery of the party, and the gadget acknowledges what the party acknowledges.
*/
module EchoRefinement {
  import opened Basics
  import opened Messages
  import opened Execution
  import opened Echo
  import opened EchoOrder
  import opened EchoGadget
  import opened EchoNetwork

  /**
    The party has the execution's inbox, its broadcasts are the ones the execution sent, number by
    number, and its channel holds what the gadget has not taken of what the execution gave it.
  */
  ghost predicate Mirrors(s: State, taken: nat, pt: Party) {
    && pt.inbox == s.inbox && |s.multicasts| == |pt.own| == s.nextOut
    && (forall k :: 0 <= k < |pt.own| ==> s.multicasts[k] == (k, pt.own[k]))
    && taken <= |s.echo| && pt.channel == s.echo[taken..]
  }

  lemma StartMirrors()
    ensures Mirrors(START, 0, FRESH)
  {
  }

  /** Sending a broadcast is the party's broadcast; a direct message leaves it as it is. */
  lemma EmitRefines(s: State, taken: nat, pt: Party, out: ProtocolOutput, p: nat)
    requires Mirrors(s, taken, pt)
    ensures Mirrors(Emit(s, out, p), taken, if out.to == None then BroadcastParty(pt, p, out.body) else pt)
  {
    var s' := Emit(s, out, p);
    if out.to == None {
      assert s'.echo[taken..] == s.echo[taken..] + [s'.echo[|s.echo|]];
    }
  }

  /** Taking in a broadcast and forwarding what is complete is a delivery to the party. */
  lemma DeliverRefines(cfg: Config, s: State, taken: nat, pt: Party, m: IncomingRequest, p: nat)
    requires Session(cfg.n, p) && Mirrors(s, taken, pt) && m.isBroadcast
    ensures Mirrors(Flush(TakeIn(s, m, p), cfg.n, p), taken,
                    DeliverParty(cfg, pt, Link(m.peerIndex + 1, p, m.context.messageId), m.payload))
  {
    var x0 := TakeIn(s, m, p).inbox;
    ForwardAppends(x0, cfg.n, p);
    var newly := Forward(x0, cfg.n, p).delivered[|s.inbox.delivered|..];
    assert (s.echo + newly)[taken..] == s.echo[taken..] + newly;
  }

  /** Nothing else that a poll does concerns the party. */
  lemma IdleRefines(cfg: Config, s: State, taken: nat, pt: Party, p: nat)
    requires Session(cfg.n, p) && Mirrors(s, taken, pt) && !Complete(s.inbox.pending, s.inbox.next, cfg.n, p)
    ensures Mirrors(Flush(s, cfg.n, p), taken, pt)
  {
    assert s.echo + [] == s.echo;
  }

  lemma DirectRefines(cfg: Config, s: State, taken: nat, pt: Party, m: IncomingRequest, p: nat)
    requires Session(cfg.n, p) && Mirrors(s, taken, pt) && !m.isBroadcast
    requires !Complete(s.inbox.pending, s.inbox.next, cfg.n, p)
    ensures Mirrors(Flush(TakeIn(s, m, p), cfg.n, p), taken, pt)
  {
    IdleRefines(cfg, TakeIn(s, m, p), taken, pt, p);
  }

  /** The party after a poll: a broadcast if the protocol made one, then a delivery if one was taken in. */
  ghost function PolledParty(cfg: Config, pt: Party, t: Turn, sessionId: Bytes, p: nat): Party
    requires Session(cfg.n, p)
  {
    var pt1 := if t.out.Some? && t.out.value.to == None then BroadcastParty(pt, p, t.out.value.body) else pt;
    if && t.inc.Some? && t.inc.value.context.sessionId == sessionId && t.inc.value.context.messageType == Computation
       && t.inc.value.isBroadcast
    then DeliverParty(cfg, pt1, Link(t.inc.value.peerIndex + 1, p, t.inc.value.context.messageId), t.inc.value.payload)
    else pt1
  }

  /**
    A poll of the execution is what the network model does to the party: at most its own broadcast and
    the delivery of one copy.  So what is proved of every run of the network holds of executions.
  */
  lemma PollRefines(cfg: Config, s: State, taken: nat, pt: Party, t: Turn, sessionId: Bytes, p: nat)
    requires Session(cfg.n, p) && Mirrors(s, taken, pt) && !Complete(s.inbox.pending, s.inbox.next, cfg.n, p)
    ensures Mirrors(Poll(s, t.out, t.inc, sessionId, cfg.n, p), taken, PolledParty(cfg, pt, t, sessionId, p))
  {
    hide Mirrors, Flush, DeliverParty, BroadcastParty;
    var s1 := if t.out.Some? then Emit(s, t.out.value, p) else s;
    var pt1 := if t.out.Some? && t.out.value.to == None then BroadcastParty(pt, p, t.out.value.body) else pt;
    if t.out.Some? {
      EmitRefines(s, taken, pt, t.out.value, p);
    }
    if t.inc.None? {
      IdleRefines(cfg, s1, taken, pt1, p);
    } else if t.inc.value.isBroadcast {
      DeliverRefines(cfg, s1, taken, pt1, t.inc.value, p);
    } else {
      DirectRefines(cfg, s1, taken, pt1, t.inc.value, p);
    }
  }

  /** What the gadget acknowledges for a full group is what the party of the network model does. */
  lemma AcksRefine(n: nat, p: nat, id: nat, g: seq<EchoMessage>, hash: Bytes -> Bytes, k: nat, h: Bytes)
    requires Session(n, p) && OneEach(n, p, id, SortBySender(g))
    ensures Ack(id, k, h) in Acks(id, SortBySender(g), GroupHash(g, hash)) <==>
              var links := AcksFor(p, g, id, GroupHash(g, hash)); Link(p, k, id) in links && links[Link(p, k, id)] == h
  {
    hide SortBySender, GroupHash;
    AckedIff(id, SortBySender(g), GroupHash(g, hash), k, h);
  }

  lemma {:induction false} AckedIff(id: nat, g: seq<EchoMessage>, h0: Bytes, k: nat, h: Bytes)
    ensures Ack(id, k, h) in Acks(id, g, h0) <==> h == h0 && exists e :: e in g && !e.outgoing && e.sender == k
  {
    if g != [] {
      AckedIff(id, g[1..], h0, k, h);
      assert g == [g[0]] + g[1..];
    }
  }
}
