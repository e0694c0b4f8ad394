/**
  What key generation makes of any stream, in terms of positions in it: where each of the two collection
  loops stops, with which error or with which packages.
*/
module DkgOutcome {
  import opened Basics
  import opened Messages
  import opened Cbor
  import opened Dkg
  import DkgOrder

  datatype Setting<P, Q> = Setting(codec: Codec<P, Q>, max: nat, self: nat)
  {
    ghost predicate Valid() {
      self in UpTo(max)
    }

    function Package1(m: ProtocolMessage): Option<P> {
      var body := Decode(m.payload);
      if body.Some? then codec.round1(body.value) else None
    }

    function Package2(m: ProtocolMessage): Option<Q> {
      var body := Decode(m.payload);
      if body.Some? then codec.round2(body.value) else None
    }
  }

  // ---- Round one ----

  predicate Broadcast(m: ProtocolMessage, id: nat) {
    m.to == None && m.from == id
  }

  /** Why a message ends the first loop with an error, if it does. */
  function Fault1<P, Q>(x: Setting<P, Q>, m: ProtocolMessage): Option<DkgError> {
    if m.to.Some? then None
    else if Decode(m.payload).None? then Some(BadEncoding)
    else if x.Package1(m).None? then Some(BadPackage)
    else if m.from == 0 then Some(InvalidIdentifier)
    else None
  }

  ghost predicate Heard<P, Q>(x: Setting<P, Q>, rx: seq<ProtocolMessage>, k: nat, id: nat)
    requires k <= |rx|
  {
    id == x.self || exists i :: 0 <= i < k && Broadcast(rx[i], id)
  }

  ghost predicate AllHeard<P, Q>(x: Setting<P, Q>, rx: seq<ProtocolMessage>, k: nat)
    requires k <= |rx|
  {
    forall id :: id in UpTo(x.max) ==> Heard(x, rx, k, id)
  }

  /** p is in the last broadcast of the party among the first k messages. */
  ghost predicate LastBroadcast<P, Q>(x: Setting<P, Q>, rx: seq<ProtocolMessage>, k: nat, id: nat, p: P)
    requires k <= |rx|
  {
    exists i :: 0 <= i < k && Broadcast(rx[i], id) && x.Package1(rx[i]) == Some(p)
             && forall j :: i < j < k ==> !Broadcast(rx[j], id)
  }

  /** After k messages: who was heard, the last package of each other party, and the direct messages in order. */
  ghost predicate After1<P, Q>(x: Setting<P, Q>, rx: seq<ProtocolMessage>, k: nat, st: Gather<P>)
    requires k <= |rx|
  {
    && (forall id :: id in st.all <==> id in UpTo(x.max) && Heard(x, rx, k, id))
    && st.others.Keys == st.all.Keys - {x.self}
    && (forall id :: id in st.others ==> LastBroadcast(x, rx, k, id, st.others[id]))
    && st.deferred == DkgOrder.Directs(rx[..k])
  }

  /** The first loop stops at message k, and why. */
  ghost predicate Outcome1<P, Q>(x: Setting<P, Q>, rx: seq<ProtocolMessage>, k: nat,
                                 r: Result<(Gather<P>, seq<ProtocolMessage>), DkgError>)
  {
    && k <= |rx| && (forall i :: 0 <= i < k ==> !AllHeard(x, rx, i) && Fault1(x, rx[i]) == None)
    && match r
       case Ok((st, rest)) => AllHeard(x, rx, k) && rest == rx[k..] && After1(x, rx, k, st)
       case Err(e) => !AllHeard(x, rx, k) && if k == |rx| then e == ChannelClosed else Fault1(x, rx[k]) == Some(e)
  }

  lemma HeardMore<P, Q>(x: Setting<P, Q>, rx: seq<ProtocolMessage>, k: nat, id: nat)
    requires k < |rx|
    ensures Heard(x, rx, k + 1, id) <==> Heard(x, rx, k, id) || Broadcast(rx[k], id)
  {
  }

  lemma LastStays<P, Q>(x: Setting<P, Q>, rx: seq<ProtocolMessage>, k: nat, id: nat, p: P)
    requires k < |rx| && LastBroadcast(x, rx, k, id, p) && !Broadcast(rx[k], id)
    ensures LastBroadcast(x, rx, k + 1, id, p)
  {
  }

  lemma LastIs<P, Q>(x: Setting<P, Q>, rx: seq<ProtocolMessage>, k: nat, p: P)
    requires k < |rx| && rx[k].to == None && x.Package1(rx[k]) == Some(p)
    ensures LastBroadcast(x, rx, k + 1, rx[k].from, p)
  {
    assert Broadcast(rx[k], rx[k].from);
  }

  lemma DirectsMore(rx: seq<ProtocolMessage>, k: nat)
    requires k < |rx|
    ensures DkgOrder.Directs(rx[..k + 1]) == DkgOrder.Directs(rx[..k]) + if rx[k].to.Some? then [rx[k]] else []
  {
    assert rx[..k + 1][..k] == rx[..k] && rx[..k + 1][k] == rx[k];
  }

  /** One message of the first loop. */
  lemma Offered1<P, Q>(x: Setting<P, Q>, rx: seq<ProtocolMessage>, k: nat, st: Gather<P>)
    requires k < |rx| && After1(x, rx, k, st)
    ensures match Fault1(x, rx[k])
            case Some(e) => Offer1(x.codec, x.max, x.self, st, rx[k]) == Err(e)
            case None =>
              var o := Offer1(x.codec, x.max, x.self, st, rx[k]);
              o.Ok? && After1(x, rx, k + 1, o.value)
  {
    hide Decode, Heard, LastBroadcast, UpTo;
    var m := rx[k];
    if Fault1(x, m).None? {
      DirectsMore(rx, k);
      forall id ensures Heard(x, rx, k + 1, id) <==> Heard(x, rx, k, id) || Broadcast(m, id) {
        HeardMore(x, rx, k, id);
      }
      forall id | id in st.others && !Broadcast(m, id) ensures LastBroadcast(x, rx, k + 1, id, st.others[id]) {
        LastStays(x, rx, k, id, st.others[id]);
      }
      if m.to.None? {
        LastIs(x, rx, k, x.Package1(m).value);
      }
    }
  }

  lemma SizeTest1<P, Q>(x: Setting<P, Q>, rx: seq<ProtocolMessage>, k: nat, st: Gather<P>)
    requires k <= |rx| && After1(x, rx, k, st)
    ensures |st.all| >= x.max <==> AllHeard(x, rx, k)
  {
    hide Heard, LastBroadcast, UpTo;
    UpToCount(x.max);
    SubsetCount(st.all.Keys, UpTo(x.max));
    assert |st.all| == |st.all.Keys|;
    assert AllHeard(x, rx, k) <==> st.all.Keys == UpTo(x.max);
  }

  lemma {:induction false} Loop1<P, Q>(x: Setting<P, Q>, rx: seq<ProtocolMessage>, k: nat, st: Gather<P>)
    returns (stop: nat)
    requires k <= |rx| && After1(x, rx, k, st)
    requires forall i :: 0 <= i < k ==> !AllHeard(x, rx, i) && Fault1(x, rx[i]) == None
    ensures Outcome1(x, rx, stop, Collect1(x.codec, x.max, x.self, st, rx[k..]))
    decreases |rx| - k
  {
    hide After1, AllHeard, Fault1, Offer1;
    SizeTest1(x, rx, k, st);
    stop := k;
    if |st.all| < x.max && k < |rx| {
      assert rx[k..][0] == rx[k] && rx[k..][1..] == rx[k + 1..];
      Offered1(x, rx, k, st);
      if Fault1(x, rx[k]) == None {
        stop := Loop1(x, rx, k + 1, Offer1(x.codec, x.max, x.self, st, rx[k]).value);
      }
    }
  }

  lemma Begins<P, Q>(x: Setting<P, Q>, own: P, rx: seq<ProtocolMessage>)
    requires x.Valid()
    ensures After1(x, rx, 0, Gather(map[x.self := own], map[], []))
  {
    hide UpTo;
  }

  /**
    The first loop on any stream: it reads until every party has been heard, and ends there with the
    last broadcast package of each other party, the direct messages in order and what it has not read;
    or with the error of the first faulty message before that, or with the end of the stream.
  */
  lemma Round1Outcome<P, Q>(x: Setting<P, Q>, own: P, rx: seq<ProtocolMessage>)
    requires x.Valid()
    ensures exists k ::
              Outcome1(x, rx, k, Collect1(x.codec, x.max, x.self, Gather(map[x.self := own], map[], []), rx))
  {
    hide Outcome1, After1;
    Begins(x, own, rx);
    assert rx[0..] == rx;
    var k := Loop1(x, rx, 0, Gather(map[x.self := own], map[], []));
  }

  // ---- Round two ----

  /** The senders of the direct messages to this party among the first k. */
  function Senders<P, Q>(x: Setting<P, Q>, rx: seq<ProtocolMessage>, k: nat): set<nat>
    requires k <= |rx|
  {
    set i | 0 <= i < k && rx[i].to == Some(x.self) :: rx[i].from
  }

  /** Why message i ends the second loop with an error, if it does. */
  function Fault2<P, Q>(x: Setting<P, Q>, rx: seq<ProtocolMessage>, i: nat): Option<DkgError>
    requires i < |rx|
  {
    var m := rx[i];
    if m.to != Some(x.self) then None
    else if m.from == 0 then Some(InvalidIdentifier)
    else if m.from in Senders(x, rx, i) then None
    else if Decode(m.payload).None? then Some(BadEncoding)
    else if x.Package2(m).None? then Some(BadPackage)
    else None
  }

  ghost predicate FirstDirect<P, Q>(x: Setting<P, Q>, rx: seq<ProtocolMessage>, k: nat, id: nat, q: Q)
    requires k <= |rx|
  {
    exists i :: 0 <= i < k && rx[i].to == Some(x.self) && rx[i].from == id && id !in Senders(x, rx, i)
             && x.Package2(rx[i]) == Some(q)
  }

  ghost predicate After2<P, Q>(x: Setting<P, Q>, rx: seq<ProtocolMessage>, k: nat, packages: map<nat, Q>)
    requires k <= |rx|
  {
    packages.Keys == Senders(x, rx, k) && forall id :: id in packages ==> FirstDirect(x, rx, k, id, packages[id])
  }

  ghost predicate Outcome2<P, Q>(x: Setting<P, Q>, rx: seq<ProtocolMessage>, k: nat,
                                 r: Result<(map<nat, Q>, seq<ProtocolMessage>), DkgError>)
  {
    && k <= |rx| && (forall i :: 0 <= i < k ==> |Senders(x, rx, i)| < x.max - 1 && Fault2(x, rx, i) == None)
    && match r
       case Ok((packages, rest)) =>
         |Senders(x, rx, k)| >= x.max - 1 && rest == rx[k..] && After2(x, rx, k, packages)
       case Err(e) =>
         && |Senders(x, rx, k)| < x.max - 1
         && if k == |rx| then e == ChannelClosed else Fault2(x, rx, k) == Some(e)
  }

  lemma SendersMore<P, Q>(x: Setting<P, Q>, rx: seq<ProtocolMessage>, k: nat)
    requires k < |rx|
    ensures Senders(x, rx, k + 1) == Senders(x, rx, k) + if rx[k].to == Some(x.self) then {rx[k].from} else {}
  {
  }

  lemma FirstStays<P, Q>(x: Setting<P, Q>, rx: seq<ProtocolMessage>, k: nat, id: nat, q: Q)
    requires k < |rx| && FirstDirect(x, rx, k, id, q)
    ensures FirstDirect(x, rx, k + 1, id, q)
  {
    hide Senders;
  }

  lemma FirstIs<P, Q>(x: Setting<P, Q>, rx: seq<ProtocolMessage>, k: nat, q: Q)
    requires k < |rx| && rx[k].to == Some(x.self) && rx[k].from !in Senders(x, rx, k) && x.Package2(rx[k]) == Some(q)
    ensures FirstDirect(x, rx, k + 1, rx[k].from, q)
  {
    hide Senders;
  }

  /** One message of the second loop. */
  lemma Offered2<P, Q>(x: Setting<P, Q>, rx: seq<ProtocolMessage>, k: nat, packages: map<nat, Q>)
    requires k < |rx| && After2(x, rx, k, packages)
    ensures match Fault2(x, rx, k)
            case Some(e) => Offer2(x.codec, x.self, packages, rx[k]) == Err(e)
            case None =>
              var o := Offer2(x.codec, x.self, packages, rx[k]);
              o.Ok? && After2(x, rx, k + 1, o.value)
  {
    hide Decode, Senders, FirstDirect;
    SendersMore(x, rx, k);
    var m := rx[k];
    if Fault2(x, rx, k).None? {
      forall id | id in packages ensures FirstDirect(x, rx, k + 1, id, packages[id]) {
        FirstStays(x, rx, k, id, packages[id]);
      }
      if m.to == Some(x.self) && m.from !in packages {
        FirstIs(x, rx, k, x.Package2(m).value);
      }
    }
  }

  lemma {:induction false} Loop2<P, Q>(x: Setting<P, Q>, rx: seq<ProtocolMessage>, k: nat, packages: map<nat, Q>)
    returns (stop: nat)
    requires k <= |rx| && After2(x, rx, k, packages)
    requires forall i :: 0 <= i < k ==> |Senders(x, rx, i)| < x.max - 1 && Fault2(x, rx, i) == None
    ensures Outcome2(x, rx, stop, Collect2(x.codec, x.max, x.self, packages, rx[k..]))
    decreases |rx| - k
  {
    assert |packages| == |packages.Keys| == |Senders(x, rx, k)|;
    hide After2, Senders, Fault2, Offer2;
    stop := k;
    if |packages| < x.max - 1 && k < |rx| {
      assert rx[k..][0] == rx[k] && rx[k..][1..] == rx[k + 1..];
      Offered2(x, rx, k, packages);
      if Fault2(x, rx, k) == None {
        stop := Loop2(x, rx, k + 1, Offer2(x.codec, x.self, packages, rx[k]).value);
      }
    }
  }

  /**
    The second loop on any stream: it reads until as many parties as there are others have sent a direct
    message, and ends there with the first of each; or with the error of the first faulty message before
    that, or with the end of the stream.
  */
  lemma Round2Outcome<P, Q>(x: Setting<P, Q>, rx: seq<ProtocolMessage>)
    ensures exists k :: Outcome2(x, rx, k, Collect2(x.codec, x.max, x.self, map[], rx))
  {
    hide Outcome2;
    assert rx[0..] == rx;
    var k := Loop2(x, rx, 0, map[]);
  }
}
