/**
  Signing does not depend on arrival order: for every interleaving of one commitment and one
  share from each remote signer, both loops finish, read every message, and produce the same maps.
*/
module SigningOrder {
  import opened Basics
  import opened Messages
  import opened Cbor
  import opened Signing

  /** What a message is: the commitment or the share of one remote signer. */
  datatype Tag = Commitment(id: nat) | Share(id: nat)

  /** What the remote signers send. */
  datatype Script<C, S> = Script(commitments: map<nat, C>, shares: map<nat, S>)

  /** m carries what t says; a share cannot be read as a commitment. */
  ghost predicate Carries<C, S>(codec: Codec<C, S>, participants: seq<nat>, script: Script<C, S>, m: ProtocolMessage,
                                t: Tag)
  {
    && 1 <= m.from <= |participants| && participants[m.from - 1] == t.id
    && Decode(m.payload).Some?
    && match t
       case Commitment(id) =>
         id in script.commitments && codec.commitment(Decode(m.payload).value) == Some(script.commitments[id])
       case Share(id) =>
         && id in script.shares && codec.share(Decode(m.payload).value) == Some(script.shares[id])
         && codec.commitment(Decode(m.payload).value) == None
  }

  /** One commitment and one share of every remote signer, in any order. */
  ghost predicate Arrangement(participants: seq<nat>, self: nat, tags: seq<Tag>) {
    && (forall i, j :: 0 <= i < j < |tags| ==> tags[i] != tags[j])
    && (forall t :: t in tags <==> t.id in participants && t.id != self)
  }

  ghost predicate Script1<C, S>(participants: seq<nat>, self: nat, script: Script<C, S>) {
    script.commitments.Keys == script.shares.Keys == Elements(participants) - {self}
  }

  /** The run of messages rx is tagged by tags. */
  ghost predicate Tagged<C, S>(codec: Codec<C, S>, participants: seq<nat>, script: Script<C, S>,
                               rx: seq<ProtocolMessage>, tags: seq<Tag>)
  {
    |rx| == |tags| && forall i :: 0 <= i < |rx| ==> Carries(codec, participants, script, rx[i], tags[i])
  }

  // ---- The state after some messages, as a function of which messages they were ----

  function CommitmentsIn<C, S>(script: Script<C, S>, done: seq<Tag>): map<nat, C> {
    map id | id in script.commitments && Commitment(id) in done :: script.commitments[id]
  }

  function SharesIn<C, S>(script: Script<C, S>, done: seq<Tag>): map<nat, S> {
    map id | id in script.shares && Share(id) in done :: script.shares[id]
  }

  function After1<C, S>(script: Script<C, S>, self: nat, own: C, done: seq<Tag>): Round1<C, S> {
    var commitments := CommitmentsIn(script, done)[self := own];
    Round1(commitments, commitments.Keys, SharesIn(script, done))
  }

  function After2<C, S>(script: Script<C, S>, self: nat, own: S, done: seq<Tag>): Round2<S> {
    var shares := SharesIn(script, done)[self := own];
    Round2(shares, shares.Keys)
  }

  lemma SenderIs<C, S>(codec: Codec<C, S>, participants: seq<nat>, self: nat, script: Script<C, S>,
                       m: ProtocolMessage, t: Tag)
    requires Roster(participants, self) && Carries(codec, participants, script, m, t)
    ensures SenderOf(m, participants) == Ok(t.id)
  {
    assert participants[m.from - 1] in participants;
  }

  lemma PushTag<C, S>(script: Script<C, S>, done: seq<Tag>, t: Tag)
    ensures t.Commitment? && t.id in script.commitments ==>
              CommitmentsIn(script, done + [t]) == CommitmentsIn(script, done)[t.id := script.commitments[t.id]]
    ensures t.Share? ==> CommitmentsIn(script, done + [t]) == CommitmentsIn(script, done)
    ensures t.Share? && t.id in script.shares ==>
              SharesIn(script, done + [t]) == SharesIn(script, done)[t.id := script.shares[t.id]]
    ensures t.Commitment? ==> SharesIn(script, done + [t]) == SharesIn(script, done)
  {
  }

  /** The first loop files each message where it belongs, whenever it comes. */
  lemma Offer1<C, S>(codec: Codec<C, S>, participants: seq<nat>, self: nat, own: C, script: Script<C, S>,
                     done: seq<Tag>, m: ProtocolMessage, t: Tag)
    requires Roster(participants, self) && Script1(participants, self, script)
    requires Carries(codec, participants, script, m, t) && t !in done && t.id != self
    ensures OfferCommitment(codec, participants, After1(script, self, own, done), m)
            == Ok(After1(script, self, own, done + [t]))
  {
    hide Decode, Roster, SenderOf;
    SenderIs(codec, participants, self, script, m, t);
    PushTag(script, done, t);
    var st := After1(script, self, own, done);
    if t.Commitment? {
      assert t.id !in st.received;
      var c := script.commitments[t.id];
      var st' := After1(script, self, own, done + [t]);
      assert st'.commitments == st.commitments[t.id := c];
      assert st'.received == st.received + {t.id};
    } else {
      assert t.id !in st.deferred;
    }
  }

  /** In the second loop all commitments are in, so only shares remain. */
  lemma Offer2<C, S>(codec: Codec<C, S>, participants: seq<nat>, self: nat, own: S, script: Script<C, S>,
                     done: seq<Tag>, m: ProtocolMessage, t: Tag)
    requires Roster(participants, self) && Script1(participants, self, script)
    requires Carries(codec, participants, script, m, t) && t !in done && t.id != self && t.Share?
    ensures OfferShare(codec, participants, After2(script, self, own, done), m)
            == Ok(After2(script, self, own, done + [t]))
  {
    hide Decode, Roster, SenderOf;
    SenderIs(codec, participants, self, script, m, t);
    PushTag(script, done, t);
    var st := After2(script, self, own, done);
    assert t.id !in st.received;
    var s := script.shares[t.id];
    var st' := After2(script, self, own, done + [t]);
    assert st'.shares == st.shares[t.id := s];
    assert st'.received == st.received + {t.id};
  }

  /** Every commitment is among the messages done. */
  ghost predicate AllCommitted(participants: seq<nat>, self: nat, done: seq<Tag>) {
    forall id: nat :: id in participants && id != self ==> Commitment(id) in done
  }

  ghost predicate AllShared(participants: seq<nat>, self: nat, done: seq<Tag>) {
    forall id: nat :: id in participants && id != self ==> Share(id) in done
  }

  lemma Stops1<C, S>(participants: seq<nat>, self: nat, own: C, script: Script<C, S>, done: seq<Tag>)
    requires Roster(participants, self) && Script1(participants, self, script)
    ensures |After1(script, self, own, done).received| >= |participants| <==> AllCommitted(participants, self, done)
  {
    var received := After1(script, self, own, done).received;
    assert received <= Elements(participants);
    SizeTestExact(participants, self, received);
    if AllCommitted(participants, self, done) {
      assert received == Elements(participants);
    } else {
      var id: nat :| id in participants && id != self && Commitment(id) !in done;
      assert id !in received && id in Elements(participants);
    }
  }

  lemma Stops2<C, S>(participants: seq<nat>, self: nat, own: S, script: Script<C, S>, done: seq<Tag>)
    requires Roster(participants, self) && Script1(participants, self, script)
    ensures |After2(script, self, own, done).received| >= |participants| <==> AllShared(participants, self, done)
  {
    var received := After2(script, self, own, done).received;
    assert received <= Elements(participants);
    SizeTestExact(participants, self, received);
    if AllShared(participants, self, done) {
      assert received == Elements(participants);
    } else {
      var id: nat :| id in participants && id != self && Share(id) !in done;
      assert id !in received && id in Elements(participants);
    }
  }

  lemma Split(tags: seq<Tag>, k: nat)
    requires k < |tags| && forall i, j :: 0 <= i < j < |tags| ==> tags[i] != tags[j]
    ensures tags[..k + 1] == tags[..k] + [tags[k]] && tags[k] !in tags[..k] && tags[k] in tags
  {
  }

  lemma CommittedInTheEnd(participants: seq<nat>, self: nat, tags: seq<Tag>)
    requires Arrangement(participants, self, tags)
    ensures AllCommitted(participants, self, tags[..|tags|])
  {
    assert tags[..|tags|] == tags;
  }

  lemma CommittedGrows(participants: seq<nat>, self: nat, tags: seq<Tag>, k: nat)
    requires k < |tags| && AllCommitted(participants, self, tags[..k])
    ensures AllCommitted(participants, self, tags[..k + 1])
  {
    assert tags[..k + 1] == tags[..k] + [tags[k]];
  }

  lemma Slice(rx: seq<ProtocolMessage>, k: nat)
    requires k < |rx|
    ensures rx[k..] != [] && rx[k..][0] == rx[k] && rx[k..][1..] == rx[k + 1..]
  {
  }

  lemma Done1<C, S>(codec: Codec<C, S>, participants: seq<nat>, st: Round1<C, S>, rx: seq<ProtocolMessage>)
    requires |st.received| >= |participants|
    ensures CollectCommitments(codec, participants, st, rx) == Ok((st, rx))
  {
  }

  lemma Done2<C, S>(codec: Codec<C, S>, participants: seq<nat>, st: Round2<S>, rx: seq<ProtocolMessage>)
    requires |st.received| >= |participants|
    ensures CollectShares(codec, participants, st, rx) == Ok((st, rx))
  {
  }

  /** The first loop stops at the message that brings the last commitment. */
  lemma {:induction false} Loop1<C, S>(codec: Codec<C, S>, participants: seq<nat>, self: nat, own: C,
                                       script: Script<C, S>,
                                       rx: seq<ProtocolMessage>, tags: seq<Tag>, k: nat) returns (stop: nat)
    requires Roster(participants, self) && Script1(participants, self, script)
    requires Arrangement(participants, self, tags) && Tagged(codec, participants, script, rx, tags) && k <= |tags|
    ensures k <= stop <= |tags| && AllCommitted(participants, self, tags[..stop])
    ensures CollectCommitments(codec, participants, After1(script, self, own, tags[..k]), rx[k..])
            == Ok((After1(script, self, own, tags[..stop]), rx[stop..]))
    decreases |tags| - k
  {
    hide Roster, Script1, OfferCommitment, CollectCommitments, After1, Carries, AllCommitted;
    Stops1(participants, self, own, script, tags[..k]);
    if AllCommitted(participants, self, tags[..k]) {
      stop := k;
      Done1(codec, participants, After1(script, self, own, tags[..k]), rx[k..]);
    } else {
      CommittedInTheEnd(participants, self, tags);
      Split(tags, k);
      assert Carries(codec, participants, script, rx[k], tags[k]);
      Offer1(codec, participants, self, own, script, tags[..k], rx[k], tags[k]);
      Slice(rx, k);
      Turn1(codec, participants, After1(script, self, own, tags[..k]), rx[k..]);
      stop := Loop1(codec, participants, self, own, script, rx, tags, k + 1);
    }
  }

  /** The second loop, started when all commitments are in, reads to the very end. */
  lemma {:induction false} Loop2<C, S>(codec: Codec<C, S>, participants: seq<nat>, self: nat, own: S,
                                       script: Script<C, S>,
                                       rx: seq<ProtocolMessage>, tags: seq<Tag>, k: nat)
    requires Roster(participants, self) && Script1(participants, self, script)
    requires Arrangement(participants, self, tags) && Tagged(codec, participants, script, rx, tags) && k <= |tags|
    requires AllCommitted(participants, self, tags[..k])
    ensures CollectShares(codec, participants, After2(script, self, own, tags[..k]), rx[k..])
            == Ok((After2(script, self, own, tags), []))
    decreases |tags| - k
  {
    hide Roster, Script1, OfferShare, CollectShares, After2, Carries;
    Stops2(participants, self, own, script, tags[..k]);
    if k == |tags| {
      assert tags[..k] == tags && rx[k..] == [];
      Done2(codec, participants, After2(script, self, own, tags[..k]), rx[k..]);
    } else {
      Split(tags, k);
      assert tags[k].Share?;
      assert Share(tags[k].id) !in tags[..k];
      assert !AllShared(participants, self, tags[..k]);
      hide Arrangement, AllShared;
      assert Carries(codec, participants, script, rx[k], tags[k]);
      Offer2(codec, participants, self, own, script, tags[..k], rx[k], tags[k]);
      Slice(rx, k);
      Turn2(codec, participants, After2(script, self, own, tags[..k]), rx[k..]);
      CommittedGrows(participants, self, tags, k);
      Loop2(codec, participants, self, own, script, rx, tags, k + 1);
    }
  }

  lemma Resumes<C, S>(participants: seq<nat>, self: nat, own: S, script: Script<C, S>, done: seq<Tag>)
    requires Script1(participants, self, script)
    ensures Resume(participants, self, own, SharesIn(script, done)) == After2(script, self, own, done)
  {
    var deferred := SharesIn(script, done);
    assert (map id | id in deferred && id in participants && id != self :: deferred[id]) == deferred;
  }

  lemma Everything<C, S>(participants: seq<nat>, self: nat, script: Script<C, S>, done: seq<Tag>)
    requires Script1(participants, self, script)
    ensures AllCommitted(participants, self, done) ==> CommitmentsIn(script, done) == script.commitments
    ensures (forall t :: t in done <==> t.id in participants && t.id != self) ==>
        SharesIn(script, done) == script.shares
  {
  }

  lemma Assemble<C, S>(codec: Codec<C, S>, participants: seq<nat>, self: nat, own: C, sign: map<nat, C> -> Option<S>,
                       rx: seq<ProtocolMessage>, r1: Round1<C, S>, rest: seq<ProtocolMessage>, share: S,
                       r2: Round2<S>, unread: seq<ProtocolMessage>)
    requires CollectCommitments(codec, participants, Begin(self, own), rx) == Ok((r1, rest))
    requires r1.commitments.Keys == Elements(participants) && sign(r1.commitments) == Some(share)
    requires CollectShares(codec, participants, Resume(participants, self, share, r1.deferred), rest)
        == Ok((r2, unread))
    requires r2.shares.Keys == Elements(participants)
    ensures RunSigning(codec, participants, self, own, sign, rx) == Ok(Signed(r1.commitments, r2.shares, unread))
  {
  }

  /** The states after everything has been read. */
  lemma Totals<C, S>(participants: seq<nat>, self: nat, own: C, share: S, script: Script<C, S>, early: seq<Tag>,
                     tags: seq<Tag>)
    requires Roster(participants, self) && Script1(participants, self, script) && Arrangement(participants, self, tags)
    requires AllCommitted(participants, self, early)
    ensures After1(script, self, own, early).commitments == script.commitments[self := own]
    ensures After2(script, self, share, tags).shares == script.shares[self := share]
    ensures script.commitments[self := own].Keys == script.shares[self := share].Keys == Elements(participants)
  {
    Everything(participants, self, script, early);
    Everything(participants, self, script, tags);
  }

  /**
    Signing is order independent: whatever the interleaving, the signer ends with the local and
    all remote commitments, the local and all remote shares, and nothing unread.
  */
  lemma SigningOrderIndependent<C, S>(codec: Codec<C, S>, participants: seq<nat>, self: nat, own: C,
                                      sign: map<nat, C> -> Option<S>, script: Script<C, S>,
                                      rx: seq<ProtocolMessage>, tags: seq<Tag>)
    requires Roster(participants, self) && Script1(participants, self, script)
    requires Arrangement(participants, self, tags) && Tagged(codec, participants, script, rx, tags)
    requires sign(script.commitments[self := own]).Some?
    ensures RunSigning(codec, participants, self, own, sign, rx)
            == Ok(Signed(script.commitments[self := own],
                         script.shares[self := sign(script.commitments[self := own]).value], []))
  {
    hide Roster, Script1, Arrangement, Carries, AllCommitted, RunSigning, CollectCommitments, CollectShares, Resume;
    var share := sign(script.commitments[self := own]).value;
    assert tags[..0] == [] && rx[0..] == rx;
    assert After1(script, self, own, []) == Begin(self, own);
    var stop := Loop1(codec, participants, self, own, script, rx, tags, 0);
    Totals(participants, self, own, share, script, tags[..stop], tags);
    Resumes(participants, self, share, script, tags[..stop]);
    Loop2(codec, participants, self, share, script, rx, tags, stop);
    Assemble(codec, participants, self, own, sign, rx,
      After1(script, self, own, tags[..stop]), rx[stop..], share, After2(script, self, share, tags), []);
  }

  /** Such an interleaving has exactly two messages for every remote signer. */
  lemma ArrangementLength(participants: seq<nat>, self: nat, tags: seq<Tag>)
    requires Roster(participants, self) && Arrangement(participants, self, tags)
    ensures |tags| == 2 * (|participants| - 1)
  {
    var ids := Elements(participants) - {self};
    RemoteCount(participants, self);
    TagCount(ids);
    TagSeqCount(tags);
    InAllTags(ids);
    assert TagSet(tags) == AllTags(ids);
  }

  lemma RemoteCount(participants: seq<nat>, self: nat)
    requires Roster(participants, self)
    ensures |Elements(participants) - {self}| == |participants| - 1
  {
    DistinctCount(participants);
    assert self in Elements(participants);
  }

  lemma InAllTags(ids: set<nat>)
    ensures forall t: Tag :: t in AllTags(ids) <==> t.id in ids
  {
    forall t: Tag ensures t in AllTags(ids) <==> t.id in ids {
      assert t == Commitment(t.id) || t == Share(t.id);
    }
  }

  function TagSet(tags: seq<Tag>): set<Tag> {
    set t | t in tags
  }

  function AllTags(ids: set<nat>): set<Tag> {
    (set id | id in ids :: Commitment(id)) + (set id | id in ids :: Share(id))
  }

  lemma {:induction false} TagSeqCount(tags: seq<Tag>)
    requires forall i, j :: 0 <= i < j < |tags| ==> tags[i] != tags[j]
    ensures |TagSet(tags)| == |tags|
  {
    if tags != [] {
      var init, last := tags[..|tags| - 1], tags[|tags| - 1];
      TagSeqCount(init);
      assert TagSet(tags) == TagSet(init) + {last} && last !in init;
    }
  }

  lemma {:induction false} TagCount(ids: set<nat>)
    ensures |AllTags(ids)| == 2 * |ids|
  {
    hide AllTags;
    InAllTags(ids);
    if ids == {} {
      assert AllTags(ids) == {};
    } else {
      var id :| id in ids;
      TagCount(ids - {id});
      InAllTags(ids - {id});
      assert AllTags(ids) == AllTags(ids - {id}) + {Commitment(id)} + {Share(id)};
    }
  }

  /**
    That shares cannot be read as commitments is exactly what order independence needs: the two
    messages of one signer may be swapped if and only if the share does not parse as a commitment.
  */
  lemma SwapIff<C, S>(codec: Codec<C, S>, participants: seq<nat>, st: Round1<C, S>, id: nat,
                      m1: ProtocolMessage, m2: ProtocolMessage, c: C, s: S)
    requires SenderOf(m1, participants) == SenderOf(m2, participants) == Ok(id)
    requires id !in st.received && id !in st.deferred
    requires Decode(m1.payload).Some? && Decode(m2.payload).Some?
    requires codec.commitment(Decode(m1.payload).value) == Some(c) && codec.share(Decode(m1.payload).value) == None
    requires codec.share(Decode(m2.payload).value) == Some(s)
    ensures OfferCommitment(codec, participants, st, m1).Ok? && OfferCommitment(codec, participants, st, m2).Ok?
    ensures (OfferCommitment(codec, participants, OfferCommitment(codec, participants, st, m1).value, m2)
             == OfferCommitment(codec, participants, OfferCommitment(codec, participants, st, m2).value, m1))
            <==> codec.commitment(Decode(m2.payload).value) == None
  {
    hide Decode, SenderOf;
    var a := OfferCommitment(codec, participants, OfferCommitment(codec, participants, st, m1).value, m2);
    var b := OfferCommitment(codec, participants, OfferCommitment(codec, participants, st, m2).value, m1);
    assert a.value.deferred[id] == s;
    if codec.commitment(Decode(m2.payload).value).Some? {
      assert id !in b.value.deferred;
    }
  }
}
