/**
  What signing makes of any stream, in terms of positions in it: where each of the two collection loops
  stops, with which error or with which commitments and shares.
*/
module SigningOutcome {
  import opened Basics
  import opened Messages
  import opened Cbor
  import opened Signing

  datatype Setting<C, S> = Setting(codec: Codec<C, S>, participants: seq<nat>, self: nat)
  {
    ghost predicate Valid() {
      Roster(participants, self)
    }

    /** m comes from the signer `id`. */
    predicate From(m: ProtocolMessage, id: nat) {
      1 <= m.from <= |participants| && participants[m.from - 1] == id
    }

    function Commitment(m: ProtocolMessage): Option<C> {
      var body := Decode(m.payload);
      if body.Some? then codec.commitment(body.value) else None
    }

    function Share(m: ProtocolMessage): Option<S> {
      var body := Decode(m.payload);
      if body.Some? then codec.share(body.value) else None
    }

    predicate Commits(m: ProtocolMessage, id: nat) {
      From(m, id) && Commitment(m).Some?
    }

    predicate Shares(m: ProtocolMessage, id: nat) {
      From(m, id) && Share(m).Some?
    }

    /** The sender index is not one of the session. */
    function Stranger(m: ProtocolMessage): Option<SignError> {
      if m.from == 0 then Some(NotOneBased) else if m.from > |participants| then Some(OutsideSession) else None
    }
  }

  lemma SenderIs<C, S>(x: Setting<C, S>, m: ProtocolMessage)
    requires x.Valid()
    ensures match x.Stranger(m)
            case Some(e) => SenderOf(m, x.participants) == Err(e)
            case None =>
              && x.From(m, x.participants[m.from - 1])
              && SenderOf(m, x.participants) == Ok(x.participants[m.from - 1])
  {
  }

  // ---- Round one ----

  /** Of the first k messages, one is a commitment of that signer. */
  ghost predicate Heard<C, S>(x: Setting<C, S>, rx: seq<ProtocolMessage>, k: nat, id: nat)
    requires k <= |rx|
  {
    id == x.self || exists i :: 0 <= i < k && x.Commits(rx[i], id)
  }

  ghost predicate AllHeard<C, S>(x: Setting<C, S>, rx: seq<ProtocolMessage>, k: nat)
    requires k <= |rx|
  {
    forall id :: id in x.participants ==> Heard(x, rx, k, id)
  }

  /** Message i is a share of that signer that is not taken for its commitment. */
  ghost predicate Spare<C, S>(x: Setting<C, S>, rx: seq<ProtocolMessage>, i: nat, id: nat)
    requires i < |rx|
  {
    x.Shares(rx[i], id) && (Heard(x, rx, i, id) || x.Commitment(rx[i]).None?)
  }

  /** Why message i ends the first loop with an error, if it does. */
  ghost function Fault<C, S>(x: Setting<C, S>, rx: seq<ProtocolMessage>, i: nat): Option<SignError>
    requires i < |rx|
  {
    var m := rx[i];
    if x.Stranger(m).Some? then x.Stranger(m)
    else if Decode(m.payload).None? then Some(BadEncoding)
    else if Heard(x, rx, i, x.participants[m.from - 1]) || x.Commitment(m).Some? || x.Share(m).Some? then None
    else Some(BadCommitment)
  }

  /** c is in the first commitment of the signer among the first k messages. */
  ghost predicate FirstCommitment<C, S>(x: Setting<C, S>, rx: seq<ProtocolMessage>, k: nat, id: nat, c: C)
    requires k <= |rx|
  {
    exists i :: 0 <= i < k && x.Commits(rx[i], id) && x.Commitment(rx[i]) == Some(c)
             && forall j :: 0 <= j < i ==> !x.Commits(rx[j], id)
  }

  ghost predicate FirstSpare<C, S>(x: Setting<C, S>, rx: seq<ProtocolMessage>, k: nat, id: nat, s: S)
    requires k <= |rx|
  {
    exists i :: 0 <= i < k && Spare(x, rx, i, id) && x.Share(rx[i]) == Some(s)
             && forall j :: 0 <= j < i ==> !Spare(x, rx, j, id)
  }

  /** The commitments after k messages: the local one, and the first of each signer heard. */
  ghost predicate Commitments<C, S>(x: Setting<C, S>, own: C, rx: seq<ProtocolMessage>, k: nat, m: map<nat, C>)
    requires k <= |rx|
  {
    && (forall id :: id in m <==> id in x.participants && Heard(x, rx, k, id))
    && (forall id :: id in m ==> if id == x.self then m[id] == own else FirstCommitment(x, rx, k, id, m[id]))
  }

  /** The shares set aside after k messages: the first spare one of each signer. */
  ghost predicate SetAside<C, S>(x: Setting<C, S>, rx: seq<ProtocolMessage>, k: nat, m: map<nat, S>)
    requires k <= |rx|
  {
    && (forall id :: id in m <==> exists i :: 0 <= i < k && Spare(x, rx, i, id))
    && (forall id :: id in m ==> FirstSpare(x, rx, k, id, m[id]))
  }

  ghost predicate After1<C, S>(x: Setting<C, S>, own: C, rx: seq<ProtocolMessage>, k: nat, st: Round1<C, S>)
    requires k <= |rx|
  {
    && Commitments(x, own, rx, k, st.commitments) && st.received == st.commitments.Keys
    && SetAside(x, rx, k, st.deferred)
  }

  /** The first loop stops at message k, and why. */
  ghost predicate Outcome1<C, S>(x: Setting<C, S>, own: C, rx: seq<ProtocolMessage>, k: nat,
                                 r: Result<(Round1<C, S>, seq<ProtocolMessage>), SignError>)
  {
    && k <= |rx| && (forall i :: 0 <= i < k ==> !AllHeard(x, rx, i) && Fault(x, rx, i) == None)
    && match r
       case Ok((st, rest)) => AllHeard(x, rx, k) && rest == rx[k..] && After1(x, own, rx, k, st)
       case Err(e) => !AllHeard(x, rx, k) && if k == |rx| then e == ChannelClosed else Fault(x, rx, k) == Some(e)
  }

  lemma HeardMore<C, S>(x: Setting<C, S>, rx: seq<ProtocolMessage>, k: nat, id: nat)
    requires k < |rx|
    ensures Heard(x, rx, k + 1, id) <==> Heard(x, rx, k, id) || x.Commits(rx[k], id)
  {
  }

  lemma FirstCommitmentStays<C, S>(x: Setting<C, S>, rx: seq<ProtocolMessage>, k: nat, id: nat, c: C)
    requires k < |rx| && FirstCommitment(x, rx, k, id, c)
    ensures FirstCommitment(x, rx, k + 1, id, c)
  {
  }

  lemma FirstSpareStays<C, S>(x: Setting<C, S>, rx: seq<ProtocolMessage>, k: nat, id: nat, s: S)
    requires k < |rx| && FirstSpare(x, rx, k, id, s)
    ensures FirstSpare(x, rx, k + 1, id, s)
  {
  }

  lemma CommitmentsStay<C, S>(x: Setting<C, S>, own: C, rx: seq<ProtocolMessage>, k: nat, m: map<nat, C>)
    requires k < |rx| && Commitments(x, own, rx, k, m)
    requires forall id :: id in x.participants && x.Commits(rx[k], id) ==> Heard(x, rx, k, id)
    ensures Commitments(x, own, rx, k + 1, m)
  {
    hide Heard, FirstCommitment;
    forall id ensures Heard(x, rx, k + 1, id) <==> Heard(x, rx, k, id) || x.Commits(rx[k], id) {
      HeardMore(x, rx, k, id);
    }
    forall id | id in m && id != x.self ensures FirstCommitment(x, rx, k + 1, id, m[id]) {
      FirstCommitmentStays(x, rx, k, id, m[id]);
    }
  }

  lemma FirstHeard<C, S>(x: Setting<C, S>, rx: seq<ProtocolMessage>, k: nat, id: nat, c: C)
    requires k < |rx| && x.Commits(rx[k], id) && x.Commitment(rx[k]) == Some(c) && !Heard(x, rx, k, id)
    ensures FirstCommitment(x, rx, k + 1, id, c) && id != x.self
  {
  }

  lemma CommitmentAdded<C, S>(x: Setting<C, S>, own: C, rx: seq<ProtocolMessage>, k: nat, m: map<nat, C>, id: nat, c: C)
    requires k < |rx| && Commitments(x, own, rx, k, m)
    requires x.Commits(rx[k], id) && x.Commitment(rx[k]) == Some(c) && !Heard(x, rx, k, id)
    ensures Commitments(x, own, rx, k + 1, m[id := c])
  {
    hide Heard, FirstCommitment, Roster, Decode;
    FirstHeard(x, rx, k, id, c);
    forall i ensures Heard(x, rx, k + 1, i) <==> Heard(x, rx, k, i) || i == id {
      HeardMore(x, rx, k, i);
    }
    forall i | i in m && i != x.self ensures FirstCommitment(x, rx, k + 1, i, m[i]) {
      FirstCommitmentStays(x, rx, k, i, m[i]);
    }
  }

  lemma SetAsideStays<C, S>(x: Setting<C, S>, rx: seq<ProtocolMessage>, k: nat, m: map<nat, S>)
    requires k < |rx| && SetAside(x, rx, k, m) && forall id :: Spare(x, rx, k, id) ==> id in m
    ensures SetAside(x, rx, k + 1, m)
  {
    hide Spare, FirstSpare;
    forall id | id in m ensures FirstSpare(x, rx, k + 1, id, m[id]) {
      FirstSpareStays(x, rx, k, id, m[id]);
    }
  }

  lemma FirstSet<C, S>(x: Setting<C, S>, rx: seq<ProtocolMessage>, k: nat, m: map<nat, S>, id: nat, s: S)
    requires k < |rx| && SetAside(x, rx, k, m) && Spare(x, rx, k, id) && x.Share(rx[k]) == Some(s) && id !in m
    ensures FirstSpare(x, rx, k + 1, id, s)
  {
    hide Spare;
  }

  lemma SpareAdded<C, S>(x: Setting<C, S>, rx: seq<ProtocolMessage>, k: nat, m: map<nat, S>, id: nat, s: S)
    requires k < |rx| && SetAside(x, rx, k, m) && Spare(x, rx, k, id) && x.Share(rx[k]) == Some(s)
    requires forall i :: Spare(x, rx, k, i) ==> i == id
    requires id !in m
    ensures SetAside(x, rx, k + 1, m[id := s])
  {
    hide Spare, FirstSpare, Decode;
    FirstSet(x, rx, k, m, id, s);
    forall i | i in m ensures FirstSpare(x, rx, k + 1, i, m[i]) {
      FirstSpareStays(x, rx, k, i, m[i]);
    }
  }

  /** One message of the first loop. */
  lemma Offered1<C, S>(x: Setting<C, S>, own: C, rx: seq<ProtocolMessage>, k: nat, st: Round1<C, S>)
    requires x.Valid() && k < |rx| && After1(x, own, rx, k, st)
    ensures match Fault(x, rx, k)
            case Some(e) => OfferCommitment(x.codec, x.participants, st, rx[k]) == Err(e)
            case None =>
              var o := OfferCommitment(x.codec, x.participants, st, rx[k]);
              o.Ok? && After1(x, own, rx, k + 1, o.value)
  {
    hide Decode, SetAside, Commitments, Roster, Heard, SenderOf;
    var m := rx[k];
    SenderIs(x, m);
    if Fault(x, rx, k).None? {
      var id := x.participants[m.from - 1];
      assert id in st.received <==> Heard(x, rx, k, id) by {
        HeardIff(x, own, rx, k, st.commitments, id);
      }
      assert forall i :: x.From(m, i) ==> i == id;
      if !Heard(x, rx, k, id) && x.Commitment(m).Some? {
        CommitmentAdded(x, own, rx, k, st.commitments, id, x.Commitment(m).value);
        SetAsideStays(x, rx, k, st.deferred);
      } else {
        CommitmentsStay(x, own, rx, k, st.commitments);
        Deferred(x, rx, k, st, id);
      }
    } else if x.Stranger(m).None? {
      HeardIff(x, own, rx, k, st.commitments, x.participants[m.from - 1]);
    }
  }

  lemma HeardIff<C, S>(x: Setting<C, S>, own: C, rx: seq<ProtocolMessage>, k: nat, m: map<nat, C>, id: nat)
    requires k <= |rx| && Commitments(x, own, rx, k, m) && id in x.participants
    ensures id in m <==> Heard(x, rx, k, id)
  {
  }

  lemma Deferred<C, S>(x: Setting<C, S>, rx: seq<ProtocolMessage>, k: nat, st: Round1<C, S>, id: nat)
    requires k < |rx| && SetAside(x, rx, k, st.deferred) && x.From(rx[k], id)
    requires Heard(x, rx, k, id) || x.Commitment(rx[k]).None?
    ensures var s := x.Share(rx[k]); SetAside(x, rx, k + 1, (if s.Some? then Defer(st, id, s.value) else st).deferred)
  {
    var s := x.Share(rx[k]);
    hide SetAside, Heard;
    if s.Some? && id !in st.deferred {
      SpareAdded(x, rx, k, st.deferred, id, s.value);
    } else {
      SetAsideStays(x, rx, k, st.deferred);
    }
  }

  /** The size test of the loop is met once everyone has been heard. */
  lemma SizeTest1<C, S>(x: Setting<C, S>, own: C, rx: seq<ProtocolMessage>, k: nat, st: Round1<C, S>)
    requires x.Valid() && k <= |rx| && After1(x, own, rx, k, st)
    ensures |st.received| >= |x.participants| <==> AllHeard(x, rx, k)
  {
    hide Heard, FirstCommitment, SetAside, Roster;
    SizeTestExact(x.participants, x.self, st.received);
  }

  lemma {:induction false} Loop1<C, S>(x: Setting<C, S>, own: C, rx: seq<ProtocolMessage>, k: nat, st: Round1<C, S>)
    returns (stop: nat)
    requires x.Valid() && k <= |rx| && After1(x, own, rx, k, st)
    requires forall i :: 0 <= i < k ==> !AllHeard(x, rx, i) && Fault(x, rx, i) == None
    ensures Outcome1(x, own, rx, stop, CollectCommitments(x.codec, x.participants, st, rx[k..]))
    decreases |rx| - k
  {
    hide After1, AllHeard, Fault, OfferCommitment, Roster;
    SizeTest1(x, own, rx, k, st);
    stop := k;
    if |st.received| < |x.participants| && k < |rx| {
      assert rx[k..][0] == rx[k] && rx[k..][1..] == rx[k + 1..];
      Offered1(x, own, rx, k, st);
      if Fault(x, rx, k) == None {
        stop := Loop1(x, own, rx, k + 1, OfferCommitment(x.codec, x.participants, st, rx[k]).value);
      }
    }
  }

  lemma Begins<C, S>(x: Setting<C, S>, own: C, rx: seq<ProtocolMessage>)
    requires x.Valid()
    ensures After1(x, own, rx, 0, Begin(x.self, own))
  {
  }

  /**
    The first loop on any stream: it reads until every signer has been heard, and ends there with the
    first commitment of each, the first spare share of each and what it has not read; or with the error
    of the first message that has one before that, or with the end of the stream.
  */
  lemma CommitmentsOutcome<C, S>(x: Setting<C, S>, own: C, rx: seq<ProtocolMessage>)
    requires x.Valid()
    ensures exists k :: Outcome1(x, own, rx, k, CollectCommitments(x.codec, x.participants, Begin(x.self, own), rx))
  {
    hide Outcome1, After1, Begin, Roster;
    Begins(x, own, rx);
    assert rx[0..] == rx;
    var k := Loop1(x, own, rx, 0, Begin(x.self, own));
  }

  // ---- Round two ----

  /** The share of a signer was set aside, or is among the first k messages. */
  ghost predicate HeardShare<C, S>(x: Setting<C, S>, early: map<nat, S>, rx: seq<ProtocolMessage>, k: nat, id: nat)
    requires k <= |rx|
  {
    id == x.self || id in early || exists i :: 0 <= i < k && x.Shares(rx[i], id)
  }

  ghost predicate AllShares<C, S>(x: Setting<C, S>, early: map<nat, S>, rx: seq<ProtocolMessage>, k: nat)
    requires k <= |rx|
  {
    forall id :: id in x.participants ==> HeardShare(x, early, rx, k, id)
  }

  /** Why message i ends the second loop with an error, if it does. */
  ghost function Fault2<C, S>(x: Setting<C, S>, early: map<nat, S>, rx: seq<ProtocolMessage>,
                              i: nat): Option<SignError>
    requires i < |rx|
  {
    var m := rx[i];
    if x.Stranger(m).Some? then x.Stranger(m)
    else if HeardShare(x, early, rx, i, x.participants[m.from - 1]) then None
    else if Decode(m.payload).None? then Some(BadEncoding)
    else if x.Share(m).Some? || x.Commitment(m).Some? then None
    else Some(BadShare)
  }

  ghost predicate FirstShare<C, S>(x: Setting<C, S>, rx: seq<ProtocolMessage>, k: nat, id: nat, s: S)
    requires k <= |rx|
  {
    exists i :: 0 <= i < k && x.Shares(rx[i], id) && x.Share(rx[i]) == Some(s)
             && forall j :: 0 <= j < i ==> !x.Shares(rx[j], id)
  }

  /** The shares after k messages: the local one, those set aside, and the first of each other signer heard. */
  ghost predicate After2<C, S>(x: Setting<C, S>, own: S, early: map<nat, S>, rx: seq<ProtocolMessage>, k: nat,
                               st: Round2<S>)
    requires k <= |rx|
  {
    && st.received == st.shares.Keys
    && (forall id :: id in st.shares <==> id in x.participants && HeardShare(x, early, rx, k, id))
    && (forall id :: id in st.shares ==>
         if id == x.self then st.shares[id] == own
         else if id in early then st.shares[id] == early[id]
         else FirstShare(x, rx, k, id, st.shares[id]))
  }

  ghost predicate Outcome2<C, S>(x: Setting<C, S>, own: S, early: map<nat, S>, rx: seq<ProtocolMessage>, k: nat,
                                 r: Result<(Round2<S>, seq<ProtocolMessage>), SignError>)
  {
    && k <= |rx| && (forall i :: 0 <= i < k ==> !AllShares(x, early, rx, i) && Fault2(x, early, rx, i) == None)
    && match r
       case Ok((st, rest)) => AllShares(x, early, rx, k) && rest == rx[k..] && After2(x, own, early, rx, k, st)
       case Err(e) =>
         !AllShares(x, early, rx, k) && if k == |rx| then e == ChannelClosed else Fault2(x, early, rx, k) == Some(e)
  }

  lemma HeardShareMore<C, S>(x: Setting<C, S>, early: map<nat, S>, rx: seq<ProtocolMessage>, k: nat, id: nat)
    requires k < |rx|
    ensures HeardShare(x, early, rx, k + 1, id) <==> HeardShare(x, early, rx, k, id) || x.Shares(rx[k], id)
  {
  }

  lemma FirstShareStays<C, S>(x: Setting<C, S>, rx: seq<ProtocolMessage>, k: nat, id: nat, s: S)
    requires k < |rx| && FirstShare(x, rx, k, id, s)
    ensures FirstShare(x, rx, k + 1, id, s)
  {
  }

  lemma SharesStay<C, S>(x: Setting<C, S>, own: S, early: map<nat, S>, rx: seq<ProtocolMessage>, k: nat, st: Round2<S>)
    requires k < |rx| && After2(x, own, early, rx, k, st)
    requires forall id :: id in x.participants && x.Shares(rx[k], id) ==> HeardShare(x, early, rx, k, id)
    ensures After2(x, own, early, rx, k + 1, st)
  {
    hide HeardShare, FirstShare;
    forall id ensures HeardShare(x, early, rx, k + 1, id) <==> HeardShare(x, early, rx, k, id) || x.Shares(rx[k], id) {
      HeardShareMore(x, early, rx, k, id);
    }
    forall id | id in st.shares && id != x.self && id !in early ensures FirstShare(x, rx, k + 1, id, st.shares[id]) {
      FirstShareStays(x, rx, k, id, st.shares[id]);
    }
  }

  lemma FirstShared<C, S>(x: Setting<C, S>, early: map<nat, S>, rx: seq<ProtocolMessage>, k: nat, id: nat, s: S)
    requires k < |rx| && x.Shares(rx[k], id) && x.Share(rx[k]) == Some(s) && !HeardShare(x, early, rx, k, id)
    ensures FirstShare(x, rx, k + 1, id, s) && id != x.self && id !in early
  {
  }

  lemma ShareAdded<C, S>(x: Setting<C, S>, own: S, early: map<nat, S>, rx: seq<ProtocolMessage>, k: nat, st: Round2<S>,
                         id: nat, s: S)
    requires k < |rx| && After2(x, own, early, rx, k, st)
    requires x.Shares(rx[k], id) && x.Share(rx[k]) == Some(s) && !HeardShare(x, early, rx, k, id)
    ensures After2(x, own, early, rx, k + 1, Round2(st.shares[id := s], st.received + {id}))
  {
    hide HeardShare, FirstShare, Decode;
    FirstShared(x, early, rx, k, id, s);
    forall i ensures HeardShare(x, early, rx, k + 1, i) <==> HeardShare(x, early, rx, k, i) || i == id {
      HeardShareMore(x, early, rx, k, i);
    }
    forall i | i in st.shares && i != x.self && i !in early ensures FirstShare(x, rx, k + 1, i, st.shares[i]) {
      FirstShareStays(x, rx, k, i, st.shares[i]);
    }
  }

  lemma ShareHeardIff<C, S>(x: Setting<C, S>, own: S, early: map<nat, S>, rx: seq<ProtocolMessage>, k: nat,
                            st: Round2<S>, id: nat)
    requires k <= |rx| && After2(x, own, early, rx, k, st) && id in x.participants
    ensures id in st.received <==> HeardShare(x, early, rx, k, id)
  {
  }

  /** One message of the second loop. */
  lemma Offered2<C, S>(x: Setting<C, S>, own: S, early: map<nat, S>, rx: seq<ProtocolMessage>, k: nat, st: Round2<S>)
    requires x.Valid() && k < |rx| && After2(x, own, early, rx, k, st)
    ensures match Fault2(x, early, rx, k)
            case Some(e) => OfferShare(x.codec, x.participants, st, rx[k]) == Err(e)
            case None =>
              var o := OfferShare(x.codec, x.participants, st, rx[k]);
              o.Ok? && After2(x, own, early, rx, k + 1, o.value)
  {
    hide Decode, After2, Roster, HeardShare, SenderOf;
    var m := rx[k];
    SenderIs(x, m);
    if x.Stranger(m).None? {
      var id := x.participants[m.from - 1];
      ShareHeardIff(x, own, early, rx, k, st, id);
      assert forall i :: x.From(m, i) ==> i == id;
      if Fault2(x, early, rx, k).None? {
        if !HeardShare(x, early, rx, k, id) && x.Share(m).Some? {
          ShareAdded(x, own, early, rx, k, st, id, x.Share(m).value);
        } else {
          SharesStay(x, own, early, rx, k, st);
        }
      }
    }
  }

  lemma SizeTest2<C, S>(x: Setting<C, S>, own: S, early: map<nat, S>, rx: seq<ProtocolMessage>, k: nat, st: Round2<S>)
    requires x.Valid() && k <= |rx| && After2(x, own, early, rx, k, st)
    ensures |st.received| >= |x.participants| <==> AllShares(x, early, rx, k)
  {
    hide HeardShare, FirstShare, Roster;
    SizeTestExact(x.participants, x.self, st.received);
  }

  lemma {:induction false} Loop2<C, S>(x: Setting<C, S>, own: S, early: map<nat, S>, rx: seq<ProtocolMessage>, k: nat,
                                       st: Round2<S>) returns (stop: nat)
    requires x.Valid() && k <= |rx| && After2(x, own, early, rx, k, st)
    requires forall i :: 0 <= i < k ==> !AllShares(x, early, rx, i) && Fault2(x, early, rx, i) == None
    ensures Outcome2(x, own, early, rx, stop, CollectShares(x.codec, x.participants, st, rx[k..]))
    decreases |rx| - k
  {
    hide After2, AllShares, Fault2, OfferShare, Roster;
    SizeTest2(x, own, early, rx, k, st);
    stop := k;
    if |st.received| < |x.participants| && k < |rx| {
      assert rx[k..][0] == rx[k] && rx[k..][1..] == rx[k + 1..];
      Offered2(x, own, early, rx, k, st);
      if Fault2(x, early, rx, k) == None {
        stop := Loop2(x, own, early, rx, k + 1, OfferShare(x.codec, x.participants, st, rx[k]).value);
      }
    }
  }

  lemma ResumesWith<C, S>(x: Setting<C, S>, own: S, early: map<nat, S>, rx: seq<ProtocolMessage>)
    requires x.Valid()
    ensures After2(x, own, early, rx, 0, Resume(x.participants, x.self, own, early))
  {
  }

  /**
    The second loop on any stream and any shares set aside: it reads until there is a share of every
    signer, the local one, the one set aside or else the first received; or ends with the error of the
    first message that has one before that, or with the end of the stream.
  */
  lemma SharesOutcome<C, S>(x: Setting<C, S>, own: S, early: map<nat, S>, rx: seq<ProtocolMessage>)
    requires x.Valid()
    ensures exists k ::
              Outcome2(x, own, early, rx, k,
                       CollectShares(x.codec, x.participants, Resume(x.participants, x.self, own, early), rx))
  {
    hide Outcome2, After2, Resume, Roster;
    ResumesWith(x, own, early, rx);
    assert rx[0..] == rx;
    var k := Loop2(x, own, early, rx, 0, Resume(x.participants, x.self, own, early));
  }

  /** Signing is the two loops with the computation of the local share between them; nothing is ever missing. */
  lemma WholeOutcome<C, S>(x: Setting<C, S>, own: C, sign: map<nat, C> -> Option<S>, rx: seq<ProtocolMessage>)
    requires x.Valid()
    ensures var r := RunSigning(x.codec, x.participants, x.self, own, sign, rx);
            match CollectCommitments(x.codec, x.participants, Begin(x.self, own), rx)
            case Err(e) => r == Err(e)
            case Ok((r1, rest)) =>
              match sign(r1.commitments)
              case None => r == Err(SignFailed)
              case Some(share) =>
                match CollectShares(x.codec, x.participants, Resume(x.participants, x.self, share, r1.deferred), rest)
                case Err(e) => r == Err(e)
                case Ok((r2, unread)) => r == Ok(Signed(r1.commitments, r2.shares, unread))
  {
    hide CollectCommitments, CollectShares, Begin, Resume, Roster;
    NothingMissing(x.codec, x.participants, x.self, own, sign, rx);
  }
}
