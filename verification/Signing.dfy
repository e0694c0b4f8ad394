/**
  The two collection loops of threshold signing (rounds one and two of section 5 of RFC 9591).

  Messages of round two may overtake messages of round one; the first loop sets them aside and
  the second starts from them.  Identifiers are the non-zero numbers of the key share; the
  deserialisers of commitments and signature shares are parameters.
*/
module Signing {
  import opened Basics
  import opened Messages
  import opened Cbor

  /** How decoded payloads are read as round one commitments and round two shares. */
  datatype Codec<C, S> = Codec(commitment: Bytes -> Option<C>, share: Bytes -> Option<S>)

  datatype SignError =
    | NotOneBased
    | OutsideSession
    | InvalidIdentifier
    | UnexpectedParticipant
    | BadEncoding
    | BadCommitment
    | BadShare
    | ChannelClosed
    | MissingCommitments
    | MissingShares
    | SignFailed

  /** The participant behind a one-based session index. */
  function ParticipantFor(index: nat, participants: seq<nat>): Result<nat, SignError> {
    if index == 0 then Err(NotOneBased)
    else if index - 1 < |participants| then Ok(participants[index - 1])
    else Err(OutsideSession)
  }

  /** The identifier of the sender of m, who must be one of the signers. */
  function SenderOf(m: ProtocolMessage, participants: seq<nat>): Result<nat, SignError> {
    match ParticipantFor(m.from, participants)
    case Err(e) => Err(e)
    case Ok(id) =>
      if id == 0 then Err(InvalidIdentifier)
      else if id !in participants then Err(UnexpectedParticipant)
      else Ok(id)
  }

  // ---- Round one ----

  datatype Round1<C, S> = Round1(commitments: map<nat, C>, received: set<nat>, deferred: map<nat, S>)

  function Defer<C, S>(st: Round1<C, S>, id: nat, s: S): Round1<C, S> {
    if id in st.deferred then st else st.(deferred := st.deferred[id := s])
  }

  /** One message of the first loop. */
  function OfferCommitment<C, S>(codec: Codec<C, S>, participants: seq<nat>, st: Round1<C, S>, m: ProtocolMessage)
    : Result<Round1<C, S>, SignError>
  {
    match SenderOf(m, participants)
    case Err(e) => Err(e)
    case Ok(id) =>
      match Decode(m.payload)
      case None => Err(BadEncoding)
      case Some(body) =>
        if id in st.received then
          match codec.share(body)
          case Some(s) => Ok(Defer(st, id, s))
          case None => Ok(st)
        else
          match codec.commitment(body)
          case Some(c) => Ok(st.(commitments := st.commitments[id := c], received := st.received + {id}))
          case None =>
            match codec.share(body)
            case Some(s) => Ok(Defer(st, id, s))
            case None => Err(BadCommitment)
  }

  /** The first loop: its final state and the messages it left unread. */
  function CollectCommitments<C, S>(codec: Codec<C, S>, participants: seq<nat>, st: Round1<C, S>,
                                    rx: seq<ProtocolMessage>)
    : Result<(Round1<C, S>, seq<ProtocolMessage>), SignError>
    decreases rx
  {
    if |st.received| >= |participants| then Ok((st, rx))
    else if rx == [] then Err(ChannelClosed)
    else
      match OfferCommitment(codec, participants, st, rx[0])
      case Err(e) => Err(e)
      case Ok(st') => CollectCommitments(codec, participants, st', rx[1..])
  }

  function Begin<C, S>(self: nat, own: C): Round1<C, S> {
    Round1(map[self := own], {self}, map[])
  }

  // ---- Round two ----

  datatype Round2<S> = Round2(shares: map<nat, S>, received: set<nat>)

  /** The second loop starts with the local share and the shares that were set aside. */
  function Resume<S>(participants: seq<nat>, self: nat, own: S, deferred: map<nat, S>): Round2<S> {
    var early := map id | id in deferred && id in participants && id != self :: deferred[id];
    Round2(early[self := own], early.Keys + {self})
  }

  function OfferShare<C, S>(codec: Codec<C, S>, participants: seq<nat>, st: Round2<S>, m: ProtocolMessage)
    : Result<Round2<S>, SignError>
  {
    match SenderOf(m, participants)
    case Err(e) => Err(e)
    case Ok(id) =>
      if id in st.received then Ok(st)
      else
        match Decode(m.payload)
        case None => Err(BadEncoding)
        case Some(body) =>
          match codec.share(body)
          case Some(s) => Ok(Round2(st.shares[id := s], st.received + {id}))
          case None => if codec.commitment(body).Some? then Ok(st) else Err(BadShare)
  }

  function CollectShares<C, S>(codec: Codec<C, S>, participants: seq<nat>, st: Round2<S>, rx: seq<ProtocolMessage>)
    : Result<(Round2<S>, seq<ProtocolMessage>), SignError>
    decreases rx
  {
    if |st.received| >= |participants| then Ok((st, rx))
    else if rx == [] then Err(ChannelClosed)
    else
      match OfferShare(codec, participants, st, rx[0])
      case Err(e) => Err(e)
      case Ok(st') => CollectShares(codec, participants, st', rx[1..])
  }

  // ---- The whole exchange ----

  function Elements(s: seq<nat>): set<nat> {
    set x | x in s
  }

  /** What the signer ends up with: the maps handed to signing and aggregation, and what is unread. */
  datatype Signed<C, S> = Signed(commitments: map<nat, C>, shares: map<nat, S>, unread: seq<ProtocolMessage>)

  function RunSigning<C, S>(codec: Codec<C, S>, participants: seq<nat>, self: nat, own: C,
                            sign: map<nat, C> -> Option<S>, rx: seq<ProtocolMessage>): Result<Signed<C, S>, SignError>
  {
    match CollectCommitments(codec, participants, Begin(self, own), rx)
    case Err(e) => Err(e)
    case Ok((r1, rest)) =>
      if r1.commitments.Keys != Elements(participants) then Err(MissingCommitments)
      else
        match sign(r1.commitments)
        case None => Err(SignFailed)
        case Some(share) =>
          match CollectShares(codec, participants, Resume(participants, self, share, r1.deferred), rest)
          case Err(e) => Err(e)
          case Ok((r2, unread)) =>
            if r2.shares.Keys != Elements(participants) then Err(MissingShares)
            else Ok(Signed(r1.commitments, r2.shares, unread))
  }

  // ---- The loops as written ----

  method CollectCommitmentsLoop<C, S>(codec: Codec<C, S>, participants: seq<nat>, self: nat, own: C,
                                      rx: seq<ProtocolMessage>)
    returns (r: Result<(Round1<C, S>, seq<ProtocolMessage>), SignError>)
    ensures r == CollectCommitments(codec, participants, Begin(self, own), rx)
  {
    var commitments: map<nat, C> := map[self := own];
    var received: set<nat> := {self};
    var deferred: map<nat, S> := map[];
    var queue := rx;
    while |received| < |participants|
      invariant CollectCommitments(codec, participants, Round1(commitments, received, deferred), queue)
             == CollectCommitments(codec, participants, Begin(self, own), rx)
      decreases queue
    {
      if queue == [] {
        return Err(ChannelClosed);
      }
      var m := queue[0];
      queue := queue[1..];
      var sender := SenderOf(m, participants);
      if sender.Err? {
        return Err(sender.error);
      }
      var body := Decode(m.payload);
      if body.None? {
        return Err(BadEncoding);
      }
      var id, share := sender.value, codec.share(body.value);
      if id in received {
        if share.Some? && id !in deferred {
          deferred := deferred[id := share.value];
        }
        continue;
      }
      match codec.commitment(body.value)
      case Some(c) =>
        commitments := commitments[id := c];
        received := received + {id};
      case None =>
        if share.None? {
          return Err(BadCommitment);
        }
        if id !in deferred {
          deferred := deferred[id := share.value];
        }
    }
    r := Ok((Round1(commitments, received, deferred), queue));
  }

  method MergeDeferred<S>(participants: seq<nat>, self: nat, own: S, deferred: map<nat, S>) returns (st: Round2<S>)
    ensures st == Resume(participants, self, own, deferred)
  {
    var shares: map<nat, S> := map[self := own];
    var received: set<nat> := {self};
    var rest := deferred.Keys;
    while rest != {}
      invariant rest <= deferred.Keys && received == shares.Keys
      invariant shares
          == (map id | id in deferred && id !in rest && id in participants && id != self :: deferred[id])[self := own]
      decreases rest
    {
      var id :| id in rest;
      rest := rest - {id};
      if id in participants && id !in received {
        shares := shares[id := deferred[id]];
        received := received + {id};
      }
    }
    st := Round2(shares, received);
  }

  method CollectSharesLoop<C, S>(codec: Codec<C, S>, participants: seq<nat>, self: nat, own: S, deferred: map<nat, S>,
                                 rx: seq<ProtocolMessage>)
    returns (r: Result<(Round2<S>, seq<ProtocolMessage>), SignError>)
    ensures r == CollectShares(codec, participants, Resume(participants, self, own, deferred), rx)
  {
    var st := MergeDeferred(participants, self, own, deferred);
    var queue := rx;
    while |st.received| < |participants|
      invariant CollectShares(codec, participants, st, queue)
             == CollectShares(codec, participants, Resume(participants, self, own, deferred), rx)
      decreases queue
    {
      if queue == [] {
        return Err(ChannelClosed);
      }
      var m := queue[0];
      queue := queue[1..];
      var sender := SenderOf(m, participants);
      if sender.Err? {
        return Err(sender.error);
      }
      var id := sender.value;
      if id in st.received {
        continue;
      }
      var body := Decode(m.payload);
      if body.None? {
        return Err(BadEncoding);
      }
      match codec.share(body.value)
      case Some(s) =>
        st := Round2(st.shares[id := s], st.received + {id});
      case None =>
        if codec.commitment(body.value).None? {
          return Err(BadShare);
        }
    }
    r := Ok((st, queue));
  }

  // ---- Soundness on any input ----

  /** Signers are distinct and include the local one. */
  ghost predicate Roster(participants: seq<nat>, self: nat) {
    && self in participants
    && (forall i :: 0 <= i < |participants| ==> participants[i] != 0)
    && (forall i, j :: 0 <= i < j < |participants| ==> participants[i] != participants[j])
  }

  lemma {:induction false} DistinctCount(s: seq<nat>)
    requires forall i, j :: 0 <= i < j < |s| ==> s[i] != s[j]
    ensures |Elements(s)| == |s|
  {
    if s != [] {
      var init, last := s[..|s| - 1], s[|s| - 1];
      DistinctCount(init);
      assert forall x :: x in init ==> exists i :: 0 <= i < |s| - 1 && s[i] == x;
      assert Elements(s) == Elements(init) + {last} && last !in init;
    }
  }

  /** The size test of a loop is exact: it stops when, and only when, every signer has been heard. */
  lemma SizeTestExact(participants: seq<nat>, self: nat, received: set<nat>)
    requires Roster(participants, self) && received <= Elements(participants)
    ensures |received| >= |participants| <==> received == Elements(participants)
  {
    DistinctCount(participants);
    SubsetCount(received, Elements(participants));
  }

  /** One turn of each loop. */
  lemma Turn1<C, S>(codec: Codec<C, S>, participants: seq<nat>, st: Round1<C, S>, rx: seq<ProtocolMessage>)
    requires |st.received| < |participants| && rx != [] && OfferCommitment(codec, participants, st, rx[0]).Ok?
    ensures CollectCommitments(codec, participants, st, rx)
            == CollectCommitments(codec, participants, OfferCommitment(codec, participants, st, rx[0]).value, rx[1..])
  {
  }

  lemma Turn2<C, S>(codec: Codec<C, S>, participants: seq<nat>, st: Round2<S>, rx: seq<ProtocolMessage>)
    requires |st.received| < |participants| && rx != [] && OfferShare(codec, participants, st, rx[0]).Ok?
    ensures CollectShares(codec, participants, st, rx)
            == CollectShares(codec, participants, OfferShare(codec, participants, st, rx[0]).value, rx[1..])
  {
  }

  /** A finished first loop is not affected by what arrives after. */
  lemma {:induction false} CollectMore<C, S>(codec: Codec<C, S>, participants: seq<nat>, st: Round1<C, S>,
                                             a: seq<ProtocolMessage>, b: seq<ProtocolMessage>)
    requires CollectCommitments(codec, participants, st, a).Ok?
    ensures var (done, rest) := CollectCommitments(codec, participants, st, a).value;
            CollectCommitments(codec, participants, st, a + b) == Ok((done, rest + b))
    decreases a
  {
    hide OfferCommitment;
    if |st.received| < |participants| {
      assert (a + b)[0] == a[0] && (a + b)[1..] == a[1..] + b;
      CollectMore(codec, participants, OfferCommitment(codec, participants, st, a[0]).value, a[1..], b);
    }
  }

  /** If the first loop needed more than a, it has read all of a, and every body in it was well formed. */
  lemma {:induction false} ReadBeyond<C, S>(codec: Codec<C, S>, participants: seq<nat>, st: Round1<C, S>,
                                            a: seq<ProtocolMessage>, b: seq<ProtocolMessage>)
    requires CollectCommitments(codec, participants, st, a + b).Ok?
    requires !CollectCommitments(codec, participants, st, a).Ok?
    ensures forall m :: m in a ==> Decode(m.payload).Some?
    decreases a
  {
    hide Decode, SenderOf;
    if a != [] {
      assert (a + b)[0] == a[0] && (a + b)[1..] == a[1..] + b && a == [a[0]] + a[1..];
      ReadBeyond(codec, participants, OfferCommitment(codec, participants, st, a[0]).value, a[1..], b);
    }
  }

  /** Every message keeps the received set in step with the map, and within the signers. */
  ghost predicate InStep1<C, S>(participants: seq<nat>, st: Round1<C, S>) {
    st.received == st.commitments.Keys && st.received <= Elements(participants)
  }

  ghost predicate InStep2<S>(participants: seq<nat>, st: Round2<S>) {
    st.received == st.shares.Keys && st.received <= Elements(participants)
  }

  lemma OfferKeepsStep1<C, S>(codec: Codec<C, S>, participants: seq<nat>, st: Round1<C, S>, m: ProtocolMessage)
    requires InStep1(participants, st) && OfferCommitment(codec, participants, st, m).Ok?
    ensures InStep1(participants, OfferCommitment(codec, participants, st, m).value)
  {
    hide Decode;
  }

  lemma OfferKeepsStep2<C, S>(codec: Codec<C, S>, participants: seq<nat>, st: Round2<S>, m: ProtocolMessage)
    requires InStep2(participants, st) && OfferShare(codec, participants, st, m).Ok?
    ensures InStep2(participants, OfferShare(codec, participants, st, m).value)
  {
    hide Decode;
  }

  /** On any input, the first loop's map has exactly the signers as keys. */
  lemma {:induction false} CommitmentsSound<C, S>(codec: Codec<C, S>, participants: seq<nat>, self: nat,
                                                  st: Round1<C, S>, rx: seq<ProtocolMessage>)
    requires Roster(participants, self) && InStep1(participants, st)
    requires CollectCommitments(codec, participants, st, rx).Ok?
    ensures CollectCommitments(codec, participants, st, rx).value.0.commitments.Keys == Elements(participants)
    decreases rx
  {
    hide OfferCommitment, Roster;
    SizeTestExact(participants, self, st.received);
    if |st.received| < |participants| {
      OfferKeepsStep1(codec, participants, st, rx[0]);
      CommitmentsSound(codec, participants, self, OfferCommitment(codec, participants, st, rx[0]).value, rx[1..]);
    }
  }

  lemma {:induction false} SharesSound<C, S>(codec: Codec<C, S>, participants: seq<nat>, self: nat, st: Round2<S>,
                                             rx: seq<ProtocolMessage>)
    requires Roster(participants, self) && InStep2(participants, st)
    requires CollectShares(codec, participants, st, rx).Ok?
    ensures CollectShares(codec, participants, st, rx).value.0.shares.Keys == Elements(participants)
    decreases rx
  {
    hide OfferShare, Roster;
    SizeTestExact(participants, self, st.received);
    if |st.received| < |participants| {
      OfferKeepsStep2(codec, participants, st, rx[0]);
      SharesSound(codec, participants, self, OfferShare(codec, participants, st, rx[0]).value, rx[1..]);
    }
  }

  lemma ResumeInStep<S>(participants: seq<nat>, self: nat, own: S, deferred: map<nat, S>)
    requires Roster(participants, self)
    ensures InStep2(participants, Resume(participants, self, own, deferred))
  {
  }

  /** With a sound roster the "missing" errors cannot occur, whatever is received. */
  lemma NothingMissing<C, S>(codec: Codec<C, S>, participants: seq<nat>, self: nat, own: C,
                             sign: map<nat, C> -> Option<S>, rx: seq<ProtocolMessage>)
    requires Roster(participants, self)
    ensures RunSigning(codec, participants, self, own, sign, rx) != Err(MissingCommitments)
    ensures RunSigning(codec, participants, self, own, sign, rx) != Err(MissingShares)
    ensures RunSigning(codec, participants, self, own, sign, rx).Ok? ==>
              && RunSigning(codec, participants, self, own, sign, rx).value.commitments.Keys == Elements(participants)
              && RunSigning(codec, participants, self, own, sign, rx).value.shares.Keys == Elements(participants)
  {
    var st: Round1<C, S> := Begin(self, own);
    assert InStep1(participants, st);
    hide CollectCommitments, CollectShares, Roster, InStep1;
    var c1 := CollectCommitments(codec, participants, st, rx);
    if c1.Ok? {
      CommitmentsSound(codec, participants, self, st, rx);
      var r1 := c1.value.0;
      if sign(r1.commitments).Some? {
        var st2 := Resume(participants, self, sign(r1.commitments).value, r1.deferred);
        ResumeInStep(participants, self, sign(r1.commitments).value, r1.deferred);
        if CollectShares(codec, participants, st2, c1.value.1).Ok? {
          SharesSound(codec, participants, self, st2, c1.value.1);
        }
      }
    }
    NoMissingError(codec, participants, st, rx);
    if c1.Ok? && sign(c1.value.0.commitments).Some? {
      NoMissingShareError(codec, participants,
        Resume(participants, self, sign(c1.value.0.commitments).value, c1.value.0.deferred), c1.value.1);
    }
  }

  lemma {:induction false} NoMissingError<C, S>(codec: Codec<C, S>, participants: seq<nat>, st: Round1<C, S>,
                                                rx: seq<ProtocolMessage>)
    ensures var r := CollectCommitments(codec, participants, st, rx);
            r.Err? ==> !r.error.MissingCommitments? && !r.error.MissingShares?
    decreases rx
  {
    if |st.received| < |participants| && rx != [] {
      var o := OfferCommitment(codec, participants, st, rx[0]);
      if o.Ok? {
        NoMissingError(codec, participants, o.value, rx[1..]);
      }
    }
  }

  lemma {:induction false} NoMissingShareError<C, S>(codec: Codec<C, S>, participants: seq<nat>, st: Round2<S>,
                                                     rx: seq<ProtocolMessage>)
    ensures var r := CollectShares(codec, participants, st, rx);
            r.Err? ==> !r.error.MissingCommitments? && !r.error.MissingShares?
    decreases rx
  {
    if |st.received| < |participants| && rx != [] {
      var o := OfferShare(codec, participants, st, rx[0]);
      if o.Ok? {
        NoMissingShareError(codec, participants, o.value, rx[1..]);
      }
    }
  }
}
