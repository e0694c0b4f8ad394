/**
  Signing agreement across the layers: echo broadcast, in-order delivery, collection of round one
  commitments, and identifiers recovered from key shares.
*/
module SigningAgreement {
  import opened Basics
  import opened Messages
  import opened Execution
  import opened EchoOrder
  import opened EchoNetwork
  import opened Cbor
  import opened Peers
  import opened Signing
  import opened Identifiers

  /** body reads as the commitment c. */
  ghost predicate Reads<C(!new), S(!new)>(codec: Codec<C, S>, body: Bytes, c: C) {
    Decode(body).Some? && codec.commitment(Decode(body).value) == Some(c)
  }

  // ---- Where collected commitments come from ----

  /** A commitment is the local one, or was read from a message of its signer. */
  ghost predicate Sourced<C(!new), S(!new)>(codec: Codec<C, S>, participants: seq<nat>, self: nat, id: nat, c: C,
                                            rx: seq<ProtocolMessage>)
  {
    id != self ==> exists m :: m in rx && SenderOf(m, participants) == Ok(id) && Reads(codec, m.payload, c)
  }

  lemma SourcedGrows<C(!new), S(!new)>(codec: Codec<C, S>, participants: seq<nat>, self: nat, id: nat, c: C,
                                       a: seq<ProtocolMessage>, b: seq<ProtocolMessage>)
    requires Sourced(codec, participants, self, id, c, a)
    ensures Sourced(codec, participants, self, id, c, a + b)
  {
    if id != self {
      var m :| m in a && SenderOf(m, participants) == Ok(id) && Reads(codec, m.payload, c);
      assert m in a + b;
    }
  }

  ghost predicate AllSourced<C(!new), S(!new)>(codec: Codec<C, S>, participants: seq<nat>, self: nat, m: map<nat, C>,
                                               rx: seq<ProtocolMessage>)
  {
    forall id :: id in m ==> Sourced(codec, participants, self, id, m[id], rx)
  }

  lemma OfferSourced<C(!new), S(!new)>(codec: Codec<C, S>, participants: seq<nat>, self: nat, st: Round1<C, S>,
                                       done: seq<ProtocolMessage>, m: ProtocolMessage)
    requires AllSourced(codec, participants, self, st.commitments, done)
    requires OfferCommitment(codec, participants, st, m).Ok?
    ensures AllSourced(codec, participants, self,
                       OfferCommitment(codec, participants, st, m).value.commitments, done + [m])
  {
    hide Decode, SenderOf;
    var st' := OfferCommitment(codec, participants, st, m).value;
    forall id | id in st'.commitments ensures Sourced(codec, participants, self, id, st'.commitments[id], done + [m]) {
      if id in st.commitments && st'.commitments[id] == st.commitments[id] {
        SourcedGrows(codec, participants, self, id, st.commitments[id], done, [m]);
      } else {
        assert m in done + [m] && SenderOf(m, participants) == Ok(id) && Reads(codec, m.payload, st'.commitments[id]);
      }
    }
  }

  /** Every commitment in the final map has such a source among the messages read. */
  lemma {:induction false} CollectedSourced<C(!new), S(!new)>(codec: Codec<C, S>, participants: seq<nat>, self: nat,
                                                              st: Round1<C, S>,
                                                      done: seq<ProtocolMessage>, rx: seq<ProtocolMessage>)
    requires AllSourced(codec, participants, self, st.commitments, done)
    requires CollectCommitments(codec, participants, st, rx).Ok?
    ensures AllSourced(codec, participants, self,
                       CollectCommitments(codec, participants, st, rx).value.0.commitments, done + rx)
    decreases rx
  {
    hide OfferCommitment, Sourced;
    if |st.received| < |participants| {
      OfferSourced(codec, participants, self, st, done, rx[0]);
      CollectedSourced(codec, participants, self, OfferCommitment(codec, participants, st, rx[0]).value,
          done + [rx[0]], rx[1..]);
      assert done + [rx[0]] + rx[1..] == done + rx;
    } else {
      forall id | id in st.commitments ensures Sourced(codec, participants, self, id, st.commitments[id], done + rx) {
        SourcedGrows(codec, participants, self, id, st.commitments[id], done, rx);
      }
    }
  }

  // ---- A map of commitments as the reading of a vector of bodies ----

  /** m is what the vector v of the n signers' bodies says, signer by signer. */
  ghost predicate ReadingOf<C(!new), S(!new)>(codec: Codec<C, S>, participants: seq<nat>, v: seq<Bytes>, m: map<nat, C>)
  {
    && m.Keys == Elements(participants) && |v| == |participants|
    && forall k :: 0 <= k < |v| ==> participants[k] in m && Reads(codec, v[k], m[participants[k]])
  }

  lemma ReadingUnique<C(!new), S(!new)>(codec: Codec<C, S>, participants: seq<nat>, v: seq<Bytes>, m: map<nat, C>,
                                        m': map<nat, C>)
    requires ReadingOf(codec, participants, v, m) && ReadingOf(codec, participants, v, m')
    ensures m == m'
  {
    forall id | id in m ensures m[id] == m'[id] {
      var k :| 0 <= k < |participants| && participants[k] == id;
      assert Reads(codec, v[k], m[id]) && Reads(codec, v[k], m'[id]);
    }
  }

  lemma ReadingIsItems<C(!new), S(!new)>(codec: Codec<C, S>, participants: seq<nat>, v: seq<Bytes>, m: map<nat, C>)
    requires ReadingOf(codec, participants, v, m)
    ensures AllItems(v)
  {
    forall k | 0 <= k < |v| ensures IsItem(v[k]) {
      assert Reads(codec, v[k], m[participants[k]]);
      DecodedIsItem(v[k]);
    }
  }

  // ---- Signers ----

  /** A party that signs: how it reads bodies, who signs, its session number and its commitment. */
  datatype Signer<C, S> = Signer(codec: Codec<C, S>, participants: seq<nat>, p: nat, own: C)
  {
    ghost predicate Valid(n: nat) {
      |participants| == n && 1 <= p <= n && Roster(participants, participants[p - 1])
    }

    /** The first loop, on what has been received. */
    function Loop(rx: seq<ProtocolMessage>): Result<(Round1<C, S>, seq<ProtocolMessage>), SignError>
      requires 1 <= p <= |participants|
    {
      CollectCommitments(codec, participants, Begin(participants[p - 1], own), rx)
    }

    /** The whole of signing. */
    function Run(sign: map<nat, C> -> Option<S>, rx: seq<ProtocolMessage>): Result<Signed<C, S>, SignError>
      requires 1 <= p <= |participants|
    {
      RunSigning(codec, participants, participants[p - 1], own, sign, rx)
    }

    /** The commitments that the first loop ends with. */
    function Map(rx: seq<ProtocolMessage>): map<nat, C>
      requires 1 <= p <= |participants| && Loop(rx).Ok?
    {
      Loop(rx).value.0.commitments
    }
  }

  /** Everything the protocol of p has been handed. */
  function Received(s: System, p: nat): seq<ProtocolMessage>
    requires p in s.parties
  {
    AsProtocol(s.parties[p].inbox.delivered)
  }

  /** The map that signing uses is the map of the first loop, however much is received later. */
  lemma SignsWithMap<C, S>(x: Signer<C, S>, sign: map<nat, C> -> Option<S>, rx: seq<ProtocolMessage>,
                           more: seq<ProtocolMessage>)
    requires 1 <= x.p <= |x.participants| && x.Loop(rx).Ok? && x.Run(sign, rx + more).Ok?
    ensures x.Run(sign, rx + more).value.commitments == x.Map(rx)
  {
    hide CollectCommitments, CollectShares, Resume;
    CollectMore(x.codec, x.participants, Begin(x.participants[x.p - 1], x.own), rx, more);
  }

  // ---- The first block ----

  lemma {:induction false} BlocksPrefix(m: Pending, k: nat, n: nat, self: nat)
    requires k >= 1 && Session(n, self)
    ensures n - 1 <= |Blocks(m, k, n, self)|
    ensures Blocks(m, k, n, self)[..n - 1] == Block(m, 0, Remotes(n, self))
    ensures k == 1 ==> |Blocks(m, k, n, self)| == n - 1
  {
    RemotesAre(n, self);
    if k == 1 {
      assert Blocks(m, 0, n, self) == [];
      assert Blocks(m, 1, n, self) == Block(m, 0, Remotes(n, self));
    } else {
      BlocksPrefix(m, k - 1, n, self);
    }
  }

  /** The first n - 1 messages the protocol of p receives, if it has received as many. */
  function FirstBlock(cfg: Config, s: System, p: nat): seq<ProtocolMessage>
    requires p in s.parties
  {
    var d := s.parties[p].inbox.delivered;
    AsProtocol(if 1 <= cfg.n <= |d| then d[..cfg.n - 1] else d)
  }

  /** What p has received is the first block and what came after it. */
  lemma FirstBlockFirst(cfg: Config, s: System, p: nat)
    requires p in s.parties
    ensures FirstBlock(cfg, s, p) <= Received(s, p)
  {
  }

  lemma DeliveredPrefix(cfg: Config, p: nat, pt: Party)
    requires Session(cfg.n, p) && StreamsOk(cfg, p, pt) && pt.inbox.next > 0
    ensures cfg.n - 1 <= |pt.inbox.delivered|
    ensures pt.inbox.delivered[..cfg.n - 1] == Block(pt.seen, 0, Remotes(cfg.n, p))
    ensures Complete(pt.seen, 0, cfg.n, p)
    ensures pt.inbox.next == 1 ==> |pt.inbox.delivered| == cfg.n - 1
  {
    hide Holds, Fed, Final;
    BlocksPrefix(pt.seen, pt.inbox.next, cfg.n, p);
  }

  lemma StartedDelivered(cfg: Config, p: nat, pt: Party)
    requires Session(cfg.n, p) && StreamsOk(cfg, p, pt) && pt.taken.Rounds() > 0
    ensures pt.inbox.next > 0 && |pt.own| > 0
  {
    hide Holds, UpToDate;
    RoundsGrow(cfg.n, pt.taken, pt.channel);
  }

  lemma FirstBlockIs(cfg: Config, s: System, p: nat)
    requires cfg.n >= 2 && p in s.parties && Session(cfg.n, p) && StreamsOk(cfg, p, s.parties[p])
    requires s.parties[p].inbox.next > 0
    ensures FirstBlock(cfg, s, p) == AsProtocol(Block(s.parties[p].seen, 0, Remotes(cfg.n, p)))
    ensures s.parties[p].inbox.next == 1 ==> Received(s, p) == FirstBlock(cfg, s, p)
  {
    hide StreamsOk, Block, Remotes;
    DeliveredPrefix(cfg, p, s.parties[p]);
    var d := s.parties[p].inbox.delivered;
    assert |d| == cfg.n - 1 ==> d[..cfg.n - 1] == d;
  }

  lemma BlockMember(seen: Pending, n: nat, p: nat, m: ProtocolMessage)
    requires Complete(seen, 0, n, p) && m in AsProtocol(Block(seen, 0, Remotes(n, p)))
    ensures Remote(n, p, m.from) && (m.from, 0) in seen && m.payload == seen[(m.from, 0)]
  {
    RemotesAre(n, p);
    hide Remotes;
    var r := Remotes(n, p);
    var i :| 0 <= i < |r| && AsProtocol(Block(seen, 0, r))[i] == m;
    assert r[i] in r;
  }

  /** Messages that carry the other signers' entries of v. */
  ghost predicate Entries(rx: seq<ProtocolMessage>, v: seq<Bytes>, p: nat) {
    forall m :: m in rx ==> 1 <= m.from <= |v| && m.from != p && m.payload == v[m.from - 1]
  }

  ghost predicate HeardFrom(rx: seq<ProtocolMessage>, k: nat) {
    exists m :: m in rx && m.from == k
  }

  /** Everyone else has a message among them. */
  ghost predicate Covers(rx: seq<ProtocolMessage>, n: nat, p: nat) {
    forall k: nat :: 1 <= k <= n && k != p ==> HeardFrom(rx, k)
  }

  /** Every other party is the sender of one of its messages. */
  lemma BlockSenders(seen: Pending, n: nat, p: nat, k: nat)
    requires Remote(n, p, k)
    ensures HeardFrom(AsProtocol(Block(seen, 0, Remotes(n, p))), k)
  {
    RemotesAre(n, p);
    hide Remotes;
    var r := Remotes(n, p);
    var i :| 0 <= i < |r| && r[i] == k;
    assert AsProtocol(Block(seen, 0, r))[i].from == k;
  }

  /** The first block carries p's vector of round zero, sender by sender. */
  lemma FirstBlockIsVector(cfg: Config, s: System, p: nat)
    requires cfg.n >= 2 && PartiesOk(cfg, s) && p in s.parties && Started(s, p) > 0
    ensures Entries(FirstBlock(cfg, s, p), Vector(cfg, s, p, 0), p) && Covers(FirstBlock(cfg, s, p), cfg.n, p)
    ensures |s.parties[p].own| > 0 && Vector(cfg, s, p, 0)[p - 1] == s.parties[p].own[0]
  {
    hide StreamsOk, MessagesOk, PhaseOk, AsProtocol, Block, FirstBlock, Remotes;
    var pt, rx := s.parties[p], FirstBlock(cfg, s, p);
    assert PartyOk(cfg, p, pt);
    StartedDelivered(cfg, p, pt);
    DeliveredPrefix(cfg, p, pt);
    FirstBlockIs(cfg, s, p);
    forall m | m in rx ensures 1 <= m.from <= cfg.n && m.from != p && m.payload == Vector(cfg, s, p, 0)[m.from - 1] {
      BlockMember(pt.seen, cfg.n, p, m);
    }
    forall k: nat | 1 <= k <= cfg.n && k != p ensures HeardFrom(rx, k) {
      BlockSenders(pt.seen, cfg.n, p, k);
    }
  }

  // ---- Reading the first block ----

  lemma IndexOfSender(participants: seq<nat>, m: ProtocolMessage, k: nat)
    requires forall i, j :: 0 <= i < j < |participants| ==> participants[i] != participants[j]
    requires k < |participants| && SenderOf(m, participants) == Ok(participants[k])
    ensures m.from == k + 1
  {
  }

  lemma {:induction false} OwnKept<C(!new), S(!new)>(codec: Codec<C, S>, participants: seq<nat>, self: nat, own: C,
                                                     st: Round1<C, S>, rx: seq<ProtocolMessage>)
    requires self in st.received && self in st.commitments && st.commitments[self] == own
    requires CollectCommitments(codec, participants, st, rx).Ok?
    ensures var m := CollectCommitments(codec, participants, st, rx).value.0.commitments; self in m && m[self] == own
    decreases rx
  {
    if |st.received| < |participants| {
      OwnKept(codec, participants, self, own, OfferCommitment(codec, participants, st, rx[0]).value, rx[1..]);
    }
  }

  /** Collecting from the entries of a vector reads that vector. */
  lemma CollectedIsReading<C(!new), S(!new)>(x: Signer<C, S>, rx: seq<ProtocolMessage>, v: seq<Bytes>)
    requires x.Valid(|v|) && Entries(rx, v, x.p) && Reads(x.codec, v[x.p - 1], x.own) && x.Loop(rx).Ok?
    ensures ReadingOf(x.codec, x.participants, v, x.Map(rx))
  {
    hide CollectCommitments, SenderOf, Reads;
    var self := x.participants[x.p - 1];
    var st: Round1<C, S> := Begin(self, x.own);
    var m := x.Map(rx);
    CommitmentsSound(x.codec, x.participants, self, st, rx);
    CollectedSourced(x.codec, x.participants, self, st, [], rx);
    OwnKept(x.codec, x.participants, self, x.own, st, rx);
    assert [] + rx == rx;
    forall k | 0 <= k < |v| ensures x.participants[k] in m && Reads(x.codec, v[k], m[x.participants[k]]) {
      assert x.participants[k] in Elements(x.participants);
      if k + 1 != x.p {
        assert Sourced(x.codec, x.participants, self, x.participants[k], m[x.participants[k]], rx);
        SourcedReads(x, m[x.participants[k]], rx, v, k);
      }
    }
  }

  /** A commitment that came from a message is what that sender's entry of the vector says. */
  lemma SourcedReads<C(!new), S(!new)>(x: Signer<C, S>, c: C, rx: seq<ProtocolMessage>, v: seq<Bytes>, k: nat)
    requires x.Valid(|v|) && Entries(rx, v, x.p) && k < |v| && k + 1 != x.p
    requires Sourced(x.codec, x.participants, x.participants[x.p - 1], x.participants[k], c, rx)
    ensures Reads(x.codec, v[k], c)
  {
    hide SenderOf, Reads;
    var msg :| msg in rx && SenderOf(msg, x.participants) == Ok(x.participants[k]) && Reads(x.codec, msg.payload, c);
    IndexOfSender(x.participants, msg, k);
  }

  /** The message comes from a signer and reads as a commitment. */
  ghost predicate Commits<C(!new), S(!new)>(codec: Codec<C, S>, participants: seq<nat>, m: ProtocolMessage) {
    SenderOf(m, participants).Ok? && exists c :: Reads(codec, m.payload, c)
  }

  lemma OfferCommits<C(!new), S(!new)>(codec: Codec<C, S>, participants: seq<nat>, st: Round1<C, S>, m: ProtocolMessage)
    requires Commits(codec, participants, m)
    ensures OfferCommitment(codec, participants, st, m).Ok?
    ensures OfferCommitment(codec, participants, st, m).value.received
         == st.received + {SenderOf(m, participants).value}
  {
    hide Decode, SenderOf;
    var c :| Reads(codec, m.payload, c);
  }

  /** If every message is a commitment and every signer is heard, the first loop finishes. */
  lemma {:induction false} AllCommit<C(!new), S(!new)>(codec: Codec<C, S>, participants: seq<nat>, self: nat,
                                                       st: Round1<C, S>, rx: seq<ProtocolMessage>)
    requires Roster(participants, self) && forall m :: m in rx ==> Commits(codec, participants, m)
    requires forall id :: id in participants ==>
               id in st.received || exists m :: m in rx && SenderOf(m, participants) == Ok(id)
    ensures CollectCommitments(codec, participants, st, rx).Ok?
    decreases rx
  {
    hide Commits, SenderOf, OfferCommitment;
    if rx == [] {
      SubsetCount(Elements(participants), st.received);
      DistinctCount(participants);
    } else if |st.received| < |participants| {
      assert rx == [rx[0]] + rx[1..];
      OfferCommits(codec, participants, st, rx[0]);
      AllCommit(codec, participants, self, OfferCommitment(codec, participants, st, rx[0]).value, rx[1..]);
    }
  }

  /** The entries of a vector that reads as commitments are enough for the first loop. */
  lemma ReadableFinishes<C(!new), S(!new)>(x: Signer<C, S>, rx: seq<ProtocolMessage>, v: seq<Bytes>, m: map<nat, C>)
    requires x.Valid(|v|) && Entries(rx, v, x.p) && Covers(rx, |v|, x.p) && ReadingOf(x.codec, x.participants, v, m)
    ensures x.Loop(rx).Ok?
  {
    hide CollectCommitments, Reads;
    var ids, self := x.participants, x.participants[x.p - 1];
    var st: Round1<C, S> := Begin(self, x.own);
    forall e | e in rx ensures Commits(x.codec, ids, e) {
      assert Reads(x.codec, v[e.from - 1], m[ids[e.from - 1]]);
    }
    forall id | id in ids ensures id in st.received || exists e :: e in rx && SenderOf(e, ids) == Ok(id) {
      var k :| 0 <= k < |ids| && ids[k] == id;
      if k + 1 != x.p {
        assert HeardFrom(rx, k + 1);
        var e :| e in rx && e.from == k + 1;
        assert SenderOf(e, ids) == Ok(id);
      }
    }
    AllCommit(x.codec, ids, self, st, rx);
  }

  // ---- The map as a function of any stream, direct messages included ----

  /** The first message of a signer that reads as a commitment. */
  function FirstFrom<C, S>(codec: Codec<C, S>, participants: seq<nat>, id: nat, rx: seq<ProtocolMessage>): Option<C> {
    if rx == [] then None
    else
      var body := Decode(rx[0].payload);
      var c := if body.Some? then codec.commitment(body.value) else None;
      if SenderOf(rx[0], participants) == Ok(id) && c.Some? then c
      else FirstFrom(codec, participants, id, rx[1..])
  }

  lemma {:induction false} CollectedFirst<C, S>(codec: Codec<C, S>, participants: seq<nat>, self: nat,
                                                st: Round1<C, S>, rx: seq<ProtocolMessage>, id: nat)
    requires Roster(participants, self) && InStep1(participants, st) && id in participants
    requires CollectCommitments(codec, participants, st, rx).Ok?
    ensures var m := CollectCommitments(codec, participants, st, rx).value.0.commitments;
            id in m && (if id in st.received then m[id] == st.commitments[id]
                        else FirstFrom(codec, participants, id, rx) == Some(m[id]))
    decreases rx
  {
    hide Decode, SenderOf, Roster;
    CommitmentsSound(codec, participants, self, st, rx);
    if |st.received| < |participants| {
      OfferKeepsStep1(codec, participants, st, rx[0]);
      CollectedFirst(codec, participants, self, OfferCommitment(codec, participants, st, rx[0]).value, rx[1..], id);
    } else {
      SizeTestExact(participants, self, st.received);
    }
  }

  /** What a signer ends up with for a participant: its own commitment, or the first one received. */
  function Held<C, S>(x: Signer<C, S>, rx: seq<ProtocolMessage>, id: nat): Option<C>
    requires 1 <= x.p <= |x.participants|
  {
    if id == x.participants[x.p - 1] then Some(x.own) else FirstFrom(x.codec, x.participants, id, rx)
  }

  lemma MapIsHeld<C, S>(x: Signer<C, S>, rx: seq<ProtocolMessage>, id: nat)
    requires x.Valid(|x.participants|) && x.Loop(rx).Ok? && id in x.participants
    ensures id in x.Map(rx) && Held(x, rx, id) == Some(x.Map(rx)[id])
  {
    hide CollectCommitments, FirstFrom;
    CollectedFirst(x.codec, x.participants, x.participants[x.p - 1], Begin(x.participants[x.p - 1], x.own), rx, id);
  }

  lemma MapKeys<C, S>(x: Signer<C, S>, rx: seq<ProtocolMessage>)
    requires x.Valid(|x.participants|) && x.Loop(rx).Ok?
    ensures x.Map(rx).Keys == Elements(x.participants)
  {
    hide CollectCommitments;
    var self := x.participants[x.p - 1];
    CommitmentsSound(x.codec, x.participants, self, Begin(self, x.own), rx);
  }

  /**
    The exact condition for agreement, whatever two signers receive, direct messages included: they sign
    with the same commitments if and only if the first one each received from every participant, or its
    own, is the same.
  */
  lemma SameMapIff<C, S>(x: Signer<C, S>, y: Signer<C, S>, rx: seq<ProtocolMessage>, ry: seq<ProtocolMessage>)
    requires x.Valid(|x.participants|) && y.Valid(|y.participants|) && x.participants == y.participants
    requires x.Loop(rx).Ok? && y.Loop(ry).Ok?
    ensures x.Map(rx) == y.Map(ry) <==> forall id :: id in x.participants ==> Held(x, rx, id) == Held(y, ry, id)
  {
    hide CollectCommitments, FirstFrom, Roster, Held;
    MapKeys(x, rx);
    MapKeys(y, ry);
    forall id | id in x.participants
      ensures id in x.Map(rx) && id in y.Map(ry)
      ensures Held(x, rx, id) == Some(x.Map(rx)[id]) && Held(y, ry, id) == Some(y.Map(ry)[id])
    {
      MapIsHeld(x, rx, id);
      MapIsHeld(y, ry, id);
    }
  }

  /**
    The loop does not look at whom a message was for, and a direct message is not echoed.  If a signer
    gets a commitment that way first, it signs with that: its map stays the one that the rest of the
    stream gives if and only if the rest says the same.
  */
  lemma DirectMessageWins<C(!new), S(!new)>(x: Signer<C, S>, direct: ProtocolMessage, rx: seq<ProtocolMessage>, c: C,
                                            k: nat)
    requires x.Valid(|x.participants|) && k < |x.participants| && k + 1 != x.p
    requires direct.to.Some? && direct.from == k + 1 && Reads(x.codec, direct.payload, c)
    requires x.Loop([direct] + rx).Ok? && x.Loop(rx).Ok?
    ensures x.participants[k] in x.Map([direct] + rx) && x.Map([direct] + rx)[x.participants[k]] == c
    ensures x.Map([direct] + rx) == x.Map(rx) <==> Held(x, rx, x.participants[k]) == Some(c)
  {
    hide CollectCommitments, Decode, Roster;
    var id := x.participants[k];
    assert SenderOf(direct, x.participants) == Ok(id) && id != x.participants[x.p - 1] by {
      SenderAt(x, direct, k);
    }
    hide SenderOf;
    assert ([direct] + rx)[1..] == rx && ([direct] + rx)[0] == direct;
    MapIsHeld(x, [direct] + rx, id);
    SameMapIff(x, x, [direct] + rx, rx);
  }

  lemma SenderAt<C, S>(x: Signer<C, S>, m: ProtocolMessage, k: nat)
    requires x.Valid(|x.participants|) && k < |x.participants| && k + 1 != x.p && m.from == k + 1
    ensures SenderOf(m, x.participants) == Ok(x.participants[k]) && x.participants[k] != x.participants[x.p - 1]
  {
    assert x.participants[k] in x.participants;
  }

  // ---- Runs in which a party signs ----

  /**
    The party follows the signing program: its first broadcast is its commitment, its second, the
    share, is made only after the first loop has finished, and it sends nothing else.
  */
  ghost predicate Signs<C(!new), S(!new)>(cfg: Config, actions: seq<Action>, x: Signer<C, S>)
    requires cfg.n >= 2 && x.Valid(cfg.n)
  {
    actions != [] ==>
      var init, a := actions[..|actions| - 1], actions[|actions| - 1];
      && Signs(cfg, init, x)
      && (a.Resend? ==> a.link.from != x.p)
      && (a.Broadcast? && a.p == x.p && Exec(cfg, init).Some? ==>
            var s := Exec(cfg, init).value;
            && (|s.parties[x.p].own| == 0 ==> Reads(x.codec, a.body, x.own))
            && (|s.parties[x.p].own| == 1 ==> x.Loop(Received(s, x.p)).Ok?))
  }

  /** The run up to its last action. */
  lemma Before(cfg: Config, actions: seq<Action>)
    requires cfg.n >= 2 && actions != [] && Exec(cfg, actions).Some?
    ensures var init, a := actions[..|actions| - 1], actions[|actions| - 1];
            && Exec(cfg, init).Some? && Enabled(cfg, Exec(cfg, init).value, a) && Inv(cfg, Exec(cfg, init).value)
            && Exec(cfg, actions).value == Apply(cfg, Exec(cfg, init).value, a)
  {
    hide Inv, Enabled, Apply;
    RunInv(cfg, actions[..|actions| - 1]);
  }

  /** What p sent: its own commitment first, and no number before its turn. */
  ghost predicate Honest<C(!new), S(!new)>(s: System, x: Signer<C, S>)
    requires x.p in s.parties
  {
    && (|s.parties[x.p].own| > 0 ==> Reads(x.codec, s.parties[x.p].own[0], x.own))
    && forall q, id: nat :: q in s.parties && (x.p, id) in s.parties[q].seen ==> id < |s.parties[x.p].own|
  }

  lemma DeliverHonest<C(!new), S(!new)>(cfg: Config, s: System, x: Signer<C, S>, link: Link, body: Bytes)
    requires cfg.n >= 2 && s.parties.Keys == UpTo(cfg.n) && x.p in s.parties && IsLink(cfg, link) && Honest(s, x)
    requires link.from == x.p ==> link.id < |s.parties[x.p].own|
    ensures Honest(s.(parties := s.parties[link.to := DeliverParty(cfg, s.parties[link.to], link, body)]), x)
  {
    hide Reads, Accept, Suffix;
  }

  lemma BroadcastHonest<C(!new), S(!new)>(cfg: Config, s: System, x: Signer<C, S>, p: nat, body: Bytes)
    requires x.p in s.parties && p in s.parties && Honest(s, x)
    requires p == x.p && |s.parties[p].own| == 0 ==> Reads(x.codec, body, x.own)
    ensures Honest(s.(parties := s.parties[p := BroadcastParty(s.parties[p], p, body)]), x)
  {
    hide Reads;
  }

  lemma HonestFrame<C(!new), S(!new)>(s: System, s': System, x: Signer<C, S>)
    requires s'.parties.Keys == s.parties.Keys && x.p in s.parties && Honest(s, x)
    requires forall q :: q in s.parties ==>
        s'.parties[q].own == s.parties[q].own && s'.parties[q].seen == s.parties[q].seen
    ensures Honest(s', x)
  {
    hide Reads;
  }

  lemma StepHonest<C(!new), S(!new)>(cfg: Config, s: System, x: Signer<C, S>, a: Action)
    requires cfg.n >= 2 && s.parties.Keys == UpTo(cfg.n) && WireOk(cfg, s) && x.p in s.parties
    requires Honest(s, x) && Enabled(cfg, s, a)
    requires a.Resend? ==> a.link.from != x.p
    requires a.Broadcast? && a.p == x.p && |s.parties[x.p].own| == 0 ==> Reads(x.codec, a.body, x.own)
    ensures Honest(Apply(cfg, s, a), x)
  {
    hide Honest, Reads, DeliverParty, BroadcastParty, TakeParty, TakeAcks, AllAgree;
    var s' := Apply(cfg, s, a);
    match a
    case Broadcast(p, body, _) =>
      BroadcastHonest(cfg, s, x, p, body);
      HonestFrame(s.(parties := s'.parties), s', x);
    case Deliver(link) =>
      DeliverHonest(cfg, s, x, link, s.wire[link]);
      HonestFrame(s.(parties := s'.parties), s', x);
    case Resend(link, body) => DeliverHonest(cfg, s, x, link, body);
    case Take(p) =>
      TakeKeeps(cfg, s.parties[p]);
      HonestFrame(s, s', x);
    case _ => HonestFrame(s, s', x);
  }

  lemma {:induction false} SignsHonest<C(!new), S(!new)>(cfg: Config, actions: seq<Action>, x: Signer<C, S>)
    requires cfg.n >= 2 && x.Valid(cfg.n) && Exec(cfg, actions).Some? && Signs(cfg, actions, x)
    ensures Honest(Exec(cfg, actions).value, x)
  {
    hide Reads, Apply, Enabled, PartiesOk, AcksOk, RepliesOk, ConfirmedOk, WireOk, CollectCommitments, Roster;
    if actions != [] {
      hide Honest;
      Before(cfg, actions);
      SignsHonest(cfg, actions[..|actions| - 1], x);
      StepHonest(cfg, Exec(cfg, actions[..|actions| - 1]).value, x, actions[|actions| - 1]);
    } else {
      assert forall q :: q in Initial(cfg).parties ==> Initial(cfg).parties[q] == FRESH;
    }
  }

  /** No step takes back what was handed out. */
  lemma DeliveredGrows(cfg: Config, s: System, a: Action, p: nat)
    requires cfg.n >= 2 && s.parties.Keys == UpTo(cfg.n) && Enabled(cfg, s, a) && p in s.parties
    ensures s.parties[p].inbox.delivered <= Apply(cfg, s, a).parties[p].inbox.delivered
    ensures s.parties[p].own <= Apply(cfg, s, a).parties[p].own
    ensures |Apply(cfg, s, a).parties[p].own| == |s.parties[p].own| + if a.Broadcast? && a.p == p then 1 else 0
    ensures a.Broadcast? ==> Apply(cfg, s, a).parties[p].inbox == s.parties[p].inbox
  {
    hide TakeAcks, AllAgree, TakeParty, DeliverParty;
    match a
    case Deliver(link) => DeliverKeeps(cfg, s.parties[link.to], link, s.wire[link]);
    case Resend(link, body) => DeliverKeeps(cfg, s.parties[link.to], link, body);
    case Take(q) => TakeKeeps(cfg, s.parties[q]);
    case _ =>
  }

  // ---- Whoever is first to sign has read the first block only ----

  /** The first loop has finished on the first block alone. */
  ghost predicate OnFirstBlock<C(!new), S(!new)>(cfg: Config, s: System, x: Signer<C, S>)
    requires x.p in s.parties && x.Valid(cfg.n)
  {
    x.Loop(FirstBlock(cfg, s, x.p)).Ok?
  }

  /** While another signer has broadcast once, at most one block can have come. */
  lemma OneBlock<C(!new), S(!new)>(cfg: Config, s: System, x: Signer<C, S>, y: Signer<C, S>)
    requires cfg.n >= 2 && PartiesOk(cfg, s) && x.p in s.parties && y.p in s.parties && x.p != y.p
    requires Honest(s, y) && |s.parties[y.p].own| <= 1
    ensures s.parties[x.p].inbox.next <= 1
  {
    hide StreamsOk, MessagesOk, PhaseOk;
    assert PartyOk(cfg, x.p, s.parties[x.p]);
    if s.parties[x.p].inbox.next > 1 {
      SecondBlockSeen(cfg, x.p, s.parties[x.p], y.p);
    }
  }

  lemma SecondBlockSeen(cfg: Config, p: nat, pt: Party, k: nat)
    requires Session(cfg.n, p) && StreamsOk(cfg, p, pt) && pt.inbox.next > 1 && Remote(cfg.n, p, k)
    ensures (k, 1) in pt.seen
  {
    hide Holds, Fed, Final;
    assert Complete(pt.seen, 1, cfg.n, p);
  }

  /** A signer that finished when at most one block had come finished on the first. */
  lemma FinishedEarly<C(!new), S(!new)>(cfg: Config, s: System, x: Signer<C, S>)
    requires cfg.n >= 2 && PartiesOk(cfg, s) && x.p in s.parties && x.Valid(cfg.n)
    requires s.parties[x.p].inbox.next <= 1 && x.Loop(Received(s, x.p)).Ok?
    ensures OnFirstBlock(cfg, s, x)
  {
    hide MessagesOk, PhaseOk, Holds, Fed, Final, Roster;
    assert PartyOk(cfg, x.p, s.parties[x.p]);
    if s.parties[x.p].inbox.next == 1 {
      FirstBlockIs(cfg, s, x.p);
    }
  }

  /** Finishing on the first block is for good. */
  lemma OnFirstBlockStays<C(!new), S(!new)>(cfg: Config, s: System, s': System, x: Signer<C, S>)
    requires cfg.n >= 2 && x.p in s.parties && x.p in s'.parties && x.Valid(cfg.n) && OnFirstBlock(cfg, s, x)
    requires s.parties[x.p].inbox.delivered <= s'.parties[x.p].inbox.delivered
    ensures OnFirstBlock(cfg, s', x)
  {
    hide CollectCommitments, Roster;
    var a, b := FirstBlock(cfg, s, x.p), FirstBlock(cfg, s', x.p);
    assert a <= b;
    assert b == a + b[|a|..];
    CollectMore(x.codec, x.participants, Begin(x.participants[x.p - 1], x.own), a, b[|a|..]);
  }

  /** Of two signers, one of whom has made a second broadcast, one has finished on the first block. */
  lemma {:induction false} FirstToSign<C(!new), S(!new)>(cfg: Config, actions: seq<Action>, x: Signer<C, S>,
                                                         y: Signer<C, S>)
    requires cfg.n >= 2 && x.Valid(cfg.n) && y.Valid(cfg.n) && x.p != y.p && Exec(cfg, actions).Some?
    requires Signs(cfg, actions, x) && Signs(cfg, actions, y)
    requires |Exec(cfg, actions).value.parties[x.p].own| > 1 || |Exec(cfg, actions).value.parties[y.p].own| > 1
    ensures OnFirstBlock(cfg, Exec(cfg, actions).value, x) || OnFirstBlock(cfg, Exec(cfg, actions).value, y)
  {
    hide OnFirstBlock, Apply, Enabled, AcksOk, RepliesOk, ConfirmedOk;
    hide WireOk, PartiesOk, Honest, Roster, CollectCommitments;
    if actions != [] {
      Before(cfg, actions);
      var init, a := actions[..|actions| - 1], actions[|actions| - 1];
      var s, s' := Exec(cfg, init).value, Exec(cfg, actions).value;
      DeliveredGrows(cfg, s, a, x.p);
      DeliveredGrows(cfg, s, a, y.p);
      if |s.parties[x.p].own| > 1 || |s.parties[y.p].own| > 1 {
        FirstToSign(cfg, init, x, y);
        if OnFirstBlock(cfg, s, x) {
          OnFirstBlockStays(cfg, s, s', x);
        } else {
          OnFirstBlockStays(cfg, s, s', y);
        }
      } else {
        SignsHonest(cfg, init, x);
        SignsHonest(cfg, init, y);
        if a.Broadcast? && a.p == x.p {
          SignsEarly(cfg, s, s', x, y);
        } else {
          SignsEarly(cfg, s, s', y, x);
        }
      }
    }
  }

  lemma SignsEarly<C(!new), S(!new)>(cfg: Config, s: System, s': System, x: Signer<C, S>, y: Signer<C, S>)
    requires cfg.n >= 2 && PartiesOk(cfg, s) && x.Valid(cfg.n) && x.p in s.parties && y.p in s.parties && x.p != y.p
    requires Honest(s, y) && |s.parties[y.p].own| <= 1 && x.Loop(Received(s, x.p)).Ok?
    requires x.p in s'.parties && s.parties[x.p].inbox.delivered <= s'.parties[x.p].inbox.delivered
    ensures OnFirstBlock(cfg, s', x)
  {
    hide PartiesOk, Honest, OnFirstBlock, CollectCommitments, Roster, Received;
    OneBlock(cfg, s, x, y);
    FinishedEarly(cfg, s, x);
    OnFirstBlockStays(cfg, s, s', x);
  }

  // ---- Agreement ----

  /** The map of a signer that finished on the first block is the reading of the vector it hashed. */
  lemma MapIsReading<C(!new), S(!new)>(cfg: Config, s: System, x: Signer<C, S>)
    requires cfg.n >= 2 && PartiesOk(cfg, s) && x.Valid(cfg.n) && x.p in s.parties && Started(s, x.p) > 0
    requires Honest(s, x) && OnFirstBlock(cfg, s, x)
    ensures ReadingOf(x.codec, x.participants, Vector(cfg, s, x.p, 0), x.Map(FirstBlock(cfg, s, x.p)))
  {
    hide CollectCommitments, FirstBlock, Reads, Roster, PartyOk, Entries, Covers;
    FirstBlockIsVector(cfg, s, x.p);
    CollectedIsReading(x, FirstBlock(cfg, s, x.p), Vector(cfg, s, x.p, 0));
  }

  /** What a signer had to read past was a block of data items. */
  lemma ReadPastItems<C(!new), S(!new)>(cfg: Config, s: System, y: Signer<C, S>)
    requires cfg.n >= 2 && PartiesOk(cfg, s) && y.Valid(cfg.n) && y.p in s.parties && Started(s, y.p) > 0
    requires Honest(s, y) && y.Loop(Received(s, y.p)).Ok? && !OnFirstBlock(cfg, s, y)
    ensures AllItems(Vector(cfg, s, y.p, 0))
  {
    hide CollectCommitments, FirstBlock, Received, Roster, PartyOk, VectorOf, Decode;
    var rx, all, v := FirstBlock(cfg, s, y.p), Received(s, y.p), Vector(cfg, s, y.p, 0);
    FirstBlockFirst(cfg, s, y.p);
    assert all == rx + all[|rx|..];
    ReadBeyond(y.codec, y.participants, Begin(y.participants[y.p - 1], y.own), rx, all[|rx|..]);
    FirstBlockIsVector(cfg, s, y.p);
    VectorLength(cfg, s, y.p, 0);
    forall k | 0 <= k < |v| ensures IsItem(v[k]) {
      if k + 1 != y.p {
        assert HeardFrom(rx, k + 1);
        var m :| m in rx && m.from == k + 1;
        assert m.payload == v[k];
      }
      DecodedIsItem(v[k]);
    }
  }

  lemma VectorLength(cfg: Config, s: System, p: nat, id: nat)
    requires p in s.parties
    ensures |Vector(cfg, s, p, id)| == cfg.n
  {
  }

  /** If one signer finished on the first block, and the round was confirmed, so did every other that finished. */
  lemma OthersFollow<C(!new), S(!new)>(cfg: Config, s: System, x: Signer<C, S>, y: Signer<C, S>)
    requires cfg.n >= 2 && PartiesOk(cfg, s) && x.Valid(cfg.n) && y.Valid(cfg.n) && x.p in s.parties && y.p in s.parties
    requires x.codec == y.codec && x.participants == y.participants
    requires Started(s, x.p) > 0 && Started(s, y.p) > 0 && Honest(s, x) && Honest(s, y)
    requires Concat(Vector(cfg, s, x.p, 0)) == Concat(Vector(cfg, s, y.p, 0))
    requires OnFirstBlock(cfg, s, x) && y.Loop(Received(s, y.p)).Ok?
    ensures OnFirstBlock(cfg, s, y)
  {
    hide CollectCommitments, FirstBlock, Received, Roster, PartiesOk, VectorOf;
    hide Honest, Entries, Covers, AllItems, ReadingOf;
    var v, w := Vector(cfg, s, x.p, 0), Vector(cfg, s, y.p, 0);
    if !OnFirstBlock(cfg, s, y) {
      var m := x.Map(FirstBlock(cfg, s, x.p));
      MapIsReading(cfg, s, x);
      ReadingIsItems(x.codec, x.participants, v, m);
      ReadPastItems(cfg, s, y);
      ConcatInjective(v, w);
      FirstBlockIsVector(cfg, s, y.p);
      VectorLength(cfg, s, y.p, 0);
      ReadableFinishes(y, FirstBlock(cfg, s, y.p), w, m);
    }
  }

  lemma SameReading<C(!new), S(!new)>(cfg: Config, s: System, x: Signer<C, S>, y: Signer<C, S>)
    requires cfg.n >= 2 && PartiesOk(cfg, s) && x.Valid(cfg.n) && y.Valid(cfg.n) && x.p in s.parties && y.p in s.parties
    requires x.codec == y.codec && x.participants == y.participants
    requires Started(s, x.p) > 0 && Started(s, y.p) > 0 && Honest(s, x) && Honest(s, y)
    requires Concat(Vector(cfg, s, x.p, 0)) == Concat(Vector(cfg, s, y.p, 0))
    requires OnFirstBlock(cfg, s, x) && OnFirstBlock(cfg, s, y)
    ensures x.Map(FirstBlock(cfg, s, x.p)) == y.Map(FirstBlock(cfg, s, y.p))
  {
    hide CollectCommitments, FirstBlock, Roster, PartiesOk, VectorOf, Honest, AllItems, ReadingOf;
    var v, w := Vector(cfg, s, x.p, 0), Vector(cfg, s, y.p, 0);
    var mx, my := x.Map(FirstBlock(cfg, s, x.p)), y.Map(FirstBlock(cfg, s, y.p));
    MapIsReading(cfg, s, x);
    MapIsReading(cfg, s, y);
    ReadingIsItems(x.codec, x.participants, v, mx);
    ReadingIsItems(y.codec, y.participants, w, my);
    ConcatInjective(v, w);
    ReadingUnique(x.codec, x.participants, v, mx, my);
  }

  /** The map does not change after the first block. */
  lemma MapStays<C(!new), S(!new)>(cfg: Config, s: System, x: Signer<C, S>)
    requires cfg.n >= 2 && x.Valid(cfg.n) && x.p in s.parties && OnFirstBlock(cfg, s, x)
    ensures x.Loop(Received(s, x.p)).Ok? && x.Map(Received(s, x.p)) == x.Map(FirstBlock(cfg, s, x.p))
  {
    hide CollectCommitments, FirstBlock, Received, Roster;
    var rx, all := FirstBlock(cfg, s, x.p), Received(s, x.p);
    FirstBlockFirst(cfg, s, x.p);
    assert all == rx + all[|rx|..];
    CollectMore(x.codec, x.participants, Begin(x.participants[x.p - 1], x.own), rx, all[|rx|..]);
  }

  /** Two signers that have finished their first loops have both finished on the first block. */
  lemma BothOnFirstBlock<C(!new), S(!new)>(cfg: Config, actions: seq<Action>, x: Signer<C, S>, y: Signer<C, S>)
    requires cfg.n >= 2 && x.Valid(cfg.n) && y.Valid(cfg.n) && x.p != y.p && Exec(cfg, actions).Some?
    requires x.codec == y.codec && x.participants == y.participants
    requires Signs(cfg, actions, x) && Signs(cfg, actions, y)
    requires var s := Exec(cfg, actions).value;
             && Started(s, x.p) > 0 && Started(s, y.p) > 0
             && Concat(Vector(cfg, s, x.p, 0)) == Concat(Vector(cfg, s, y.p, 0))
             && x.Loop(Received(s, x.p)).Ok? && y.Loop(Received(s, y.p)).Ok?
    ensures OnFirstBlock(cfg, Exec(cfg, actions).value, x) && OnFirstBlock(cfg, Exec(cfg, actions).value, y)
  {
    hide OnFirstBlock, Exec, Signs, PartiesOk, WireOk, AcksOk, RepliesOk;
    hide ConfirmedOk, Honest, Received, CollectCommitments, Roster;
    hide Vector;
    var s := Exec(cfg, actions).value;
    RunInv(cfg, actions);
    SignsHonest(cfg, actions, x);
    SignsHonest(cfg, actions, y);
    if |s.parties[x.p].own| > 1 || |s.parties[y.p].own| > 1 {
      FirstToSign(cfg, actions, x, y);
      if OnFirstBlock(cfg, s, x) {
        OthersFollow(cfg, s, x, y);
      } else {
        OthersFollow(cfg, s, y, x);
      }
    } else {
      OneBlock(cfg, s, x, y);
      OneBlock(cfg, s, y, x);
      FinishedEarly(cfg, s, x);
      FinishedEarly(cfg, s, y);
    }
  }

  /**
    Two parties follow the signing program and have finished their first loops on what they received,
    and some party has confirmed the first echo round.  The other parties may send what they like, to
    whom they like and as often as they like: bodies that are no commitments, no data items, or
    different for every recipient.
  */
  ghost predicate BothSigning<C(!new), S(!new)>(cfg: Config, actions: seq<Action>, a: nat, x: Signer<C, S>,
                                                y: Signer<C, S>)
  {
    && cfg.n >= 2 && x.Valid(cfg.n) && y.Valid(cfg.n) && x.p != y.p && x.codec == y.codec
    && Exec(cfg, actions).Some? && Signs(cfg, actions, x) && Signs(cfg, actions, y)
    && a in UpTo(cfg.n) && Exec(cfg, actions).value.parties[a].confirmed > 0
    && x.Loop(Received(Exec(cfg, actions).value, x.p)).Ok? && y.Loop(Received(Exec(cfg, actions).value, y.p)).Ok?
  }

  /**
    Signing agreement: two such signers hold the same commitment map, and so build the same signing
    package, as section 5.2 of RFC 9591 requires.
  */
  lemma SameCommitments<C(!new), S(!new)>(cfg: Config, actions: seq<Action>, a: nat, x: Signer<C, S>, y: Signer<C, S>)
    requires BothSigning(cfg, actions, a, x, y) && x.participants == y.participants && Injective(cfg.hash)
    ensures var s := Exec(cfg, actions).value; x.Map(Received(s, x.p)) == y.Map(Received(s, y.p))
  {
    hide OnFirstBlock, Exec, Signs, PartiesOk, WireOk, AcksOk, RepliesOk, ConfirmedOk, Honest, Received;
    hide Vector, CollectCommitments, Roster;
    var s := Exec(cfg, actions).value;
    RunInv(cfg, actions);
    SameBytesHashed(cfg, actions, a, x.p, 0);
    SameBytesHashed(cfg, actions, a, y.p, 0);
    BothOnFirstBlock(cfg, actions, x, y);
    SignsHonest(cfg, actions, x);
    SignsHonest(cfg, actions, y);
    SameReading(cfg, s, x, y);
    MapStays(cfg, s, x);
    MapStays(cfg, s, y);
  }

  /** The signer's list of participants is what it computes from its key share for the session. */
  ghost predicate FromShare<C, S>(text: Text, keygen: seq<PeerId>, session: seq<PeerId>, share: KeyShare,
                                  x: Signer<C, S>)
  {
    && FromKeygen(text, keygen, share) && 1 <= x.p <= |session|
    && MapParties(text, session, session[x.p - 1], share).Ok?
    && x.participants == SigningParticipants(MapParties(text, session, session[x.p - 1], share).value.0)
  }

  lemma SameParticipants<C, S>(text: Text, keygen: seq<PeerId>, session: seq<PeerId>, shareX: KeyShare,
                               shareY: KeyShare,
                               x: Signer<C, S>, y: Signer<C, S>)
    requires Readable(text) && Ascending(keygen) && 1 <= |keygen| <= 0xFFFF && forall z :: z in session ==> z in keygen
    requires FromShare(text, keygen, session, shareX, x) && FromShare(text, keygen, session, shareY, y)
    ensures x.participants == y.participants
  {
    assert session[x.p - 1] in session && session[y.p - 1] in session;
    SameSigners(text, keygen, session, session[x.p - 1], session[y.p - 1], shareX, shareY);
  }

  /**
    The same with key shares, and for the whole of signing: signers whose shares come from one key
    generation agree on who signs, and whatever they receive later and however they sign, the
    commitments they sign with are the same.
  */
  lemma SigningAgreement<C(!new), S(!new)>(cfg: Config, actions: seq<Action>, text: Text, keygen: seq<PeerId>,
                                           session: seq<PeerId>, shareX: KeyShare, shareY: KeyShare,
                                           a: nat, x: Signer<C, S>, y: Signer<C, S>,
                                           signX: map<nat, C> -> Option<S>, signY: map<nat, C> -> Option<S>,
                                           moreX: seq<ProtocolMessage>, moreY: seq<ProtocolMessage>)
    requires BothSigning(cfg, actions, a, x, y) && Injective(cfg.hash)
    requires Readable(text) && Ascending(keygen) && 1 <= |keygen| <= 0xFFFF && forall z :: z in session ==> z in keygen
    requires FromShare(text, keygen, session, shareX, x) && FromShare(text, keygen, session, shareY, y)
    ensures x.participants == y.participants
    ensures var s := Exec(cfg, actions).value;
            var rx, ry := Received(s, x.p) + moreX, Received(s, y.p) + moreY;
            x.Run(signX, rx).Ok? && y.Run(signY, ry).Ok? ==>
              x.Run(signX, rx).value.commitments == y.Run(signY, ry).value.commitments
  {
    SameParticipants(text, keygen, session, shareX, shareY, x, y);
    SameCommitments(cfg, actions, a, x, y);
    hide Exec, Injective, Signs, CollectCommitments, RunSigning, Roster, Received, FromShare;
    var rx, ry := Received(Exec(cfg, actions).value, x.p), Received(Exec(cfg, actions).value, y.p);
    if x.Run(signX, rx + moreX).Ok? && y.Run(signY, ry + moreY).Ok? {
      SignsWithMap(x, signX, rx, moreX);
      SignsWithMap(y, signY, ry, moreY);
    }
  }
}
