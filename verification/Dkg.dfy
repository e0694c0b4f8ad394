/**
  The two collection loops of distributed key generation.

  Round one packages are broadcast, round two packages are sent directly.  A direct package that
  overtakes the broadcasts is set aside and read first when round two begins.
*/
module Dkg {
  import opened Basics
  import opened Messages
  import opened Cbor

  /** How decoded payloads are read as packages of the two rounds. */
  datatype Codec<P, Q> = Codec(round1: Bytes -> Option<P>, round2: Bytes -> Option<Q>)

  datatype DkgError =
    | InvalidIdentifier
    | ThresholdTooSmall
    | ThresholdTooLarge
    | ChannelClosed
    | BadEncoding
    | BadPackage
    | WrongTotal
    | WrongOthers
    | Part2Failed

  // ---- Round one ----

  datatype Gather<P> = Gather(all: map<nat, P>, others: map<nat, P>, deferred: seq<ProtocolMessage>)

  function Offer1<P, Q>(codec: Codec<P, Q>, max: nat, self: nat, st: Gather<P>,
                        m: ProtocolMessage): Result<Gather<P>, DkgError>
  {
    if m.to.Some? then Ok(st.(deferred := st.deferred + [m]))
    else
      match Decode(m.payload)
      case None => Err(BadEncoding)
      case Some(body) =>
        match codec.round1(body)
        case None => Err(BadPackage)
        case Some(p) =>
          if m.from == 0 then Err(InvalidIdentifier)
          else if m.from !in UpTo(max) then Ok(st)
          else Ok(st.(all := st.all[m.from := p],
                      others := if m.from != self then st.others[m.from := p] else st.others))
  }

  function Collect1<P, Q>(codec: Codec<P, Q>, max: nat, self: nat, st: Gather<P>, rx: seq<ProtocolMessage>)
    : Result<(Gather<P>, seq<ProtocolMessage>), DkgError>
    decreases rx
  {
    if |st.all| >= max then Ok((st, rx))
    else if rx == [] then Err(ChannelClosed)
    else
      match Offer1(codec, max, self, st, rx[0])
      case Err(e) => Err(e)
      case Ok(st') => Collect1(codec, max, self, st', rx[1..])
  }

  // ---- Round two ----

  function Offer2<P, Q>(codec: Codec<P, Q>, self: nat, packages: map<nat, Q>,
                        m: ProtocolMessage): Result<map<nat, Q>, DkgError>
  {
    if m.to != Some(self) then Ok(packages)
    else if m.from == 0 then Err(InvalidIdentifier)
    else if m.from in packages then Ok(packages)
    else
      match Decode(m.payload)
      case None => Err(BadEncoding)
      case Some(body) =>
        match codec.round2(body)
        case None => Err(BadPackage)
        case Some(q) => Ok(packages[m.from := q])
  }

  function Collect2<P, Q>(codec: Codec<P, Q>, max: nat, self: nat, packages: map<nat, Q>, queue: seq<ProtocolMessage>)
    : Result<(map<nat, Q>, seq<ProtocolMessage>), DkgError>
    decreases queue
  {
    if |packages| >= max - 1 then Ok((packages, queue))
    else if queue == [] then Err(ChannelClosed)
    else
      match Offer2(codec, self, packages, queue[0])
      case Err(e) => Err(e)
      case Ok(packages') => Collect2(codec, max, self, packages', queue[1..])
  }

  /** The maps that the second and third parts of the protocol are called with. */
  datatype Packages<P, Q> = Packages(round1: map<nat, P>, round2: map<nat, Q>, unread: seq<ProtocolMessage>)

  /** `part2` says whether the round two shares could be computed. */
  function RunDkg<P, Q>(codec: Codec<P, Q>, self: nat, threshold: nat, max: nat, own: P,
                        part2: map<nat, P> -> bool, rx: seq<ProtocolMessage>): Result<Packages<P, Q>, DkgError>
  {
    if self == 0 then Err(InvalidIdentifier)
    else if threshold < 2 then Err(ThresholdTooSmall)
    else if threshold > max then Err(ThresholdTooLarge)
    else
      match Collect1(codec, max, self, Gather(map[self := own], map[], []), rx)
      case Err(e) => Err(e)
      case Ok((st, rest)) =>
        if |st.all| != max then Err(WrongTotal)
        else if |st.others| != max - 1 then Err(WrongOthers)
        else if !part2(st.others) then Err(Part2Failed)
        else
          match Collect2(codec, max, self, map[], st.deferred + rest)
          case Err(e) => Err(e)
          case Ok((packages, unread)) => Ok(Packages(st.others, packages, unread))
  }

  // ---- The loops as written ----

  method ExpectedIds(max: nat) returns (expected: set<nat>)
    ensures expected == UpTo(max)
  {
    expected := {};
    for u := 1 to max + 1
      invariant expected == UpTo(u - 1)
    {
      expected := expected + {u};
    }
  }

  method Collect1Loop<P, Q>(codec: Codec<P, Q>, max: nat, self: nat, own: P, rx: seq<ProtocolMessage>)
    returns (r: Result<(Gather<P>, seq<ProtocolMessage>), DkgError>)
    ensures r == Collect1(codec, max, self, Gather(map[self := own], map[], []), rx)
  {
    var all: map<nat, P> := map[self := own];
    var others: map<nat, P> := map[];
    var deferred: seq<ProtocolMessage> := [];
    hide Decode, UpTo;
    var expected := ExpectedIds(max);
    var queue := rx;
    while |all| < max
      invariant Collect1(codec, max, self, Gather(all, others, deferred), queue)
             == Collect1(codec, max, self, Gather(map[self := own], map[], []), rx)
      decreases queue
    {
      if queue == [] {
        return Err(ChannelClosed);
      }
      var m := queue[0];
      queue := queue[1..];
      if m.to.Some? {
        deferred := deferred + [m];
        continue;
      }
      var body := Decode(m.payload);
      if body.None? {
        return Err(BadEncoding);
      }
      var p := codec.round1(body.value);
      if p.None? {
        return Err(BadPackage);
      }
      if m.from == 0 {
        return Err(InvalidIdentifier);
      }
      if m.from in expected {
        all := all[m.from := p.value];
        if m.from != self {
          others := others[m.from := p.value];
        }
      }
    }
    r := Ok((Gather(all, others, deferred), queue));
  }

  /** Reads the deferred messages first, then the channel. */
  method Collect2Loop<P, Q>(codec: Codec<P, Q>, max: nat, self: nat, deferred: seq<ProtocolMessage>,
                            rx: seq<ProtocolMessage>)
    returns (r: Result<(map<nat, Q>, seq<ProtocolMessage>), DkgError>)
    ensures r == Collect2(codec, max, self, map[], deferred + rx)
  {
    var packages: map<nat, Q> := map[];
    var senders: set<nat> := {};
    var early, queue := deferred, rx;
    while |packages| < max - 1
      invariant Collect2(codec, max, self, packages, early + queue) == Collect2(codec, max, self, map[], deferred + rx)
      invariant senders == packages.Keys
      decreases early, queue
    {
      var m;
      if early != [] {
        m := early[0];
        assert (early + queue)[1..] == early[1..] + queue;
        early := early[1..];
      } else if queue != [] {
        m := queue[0];
        assert (early + queue)[1..] == early + queue[1..];
        queue := queue[1..];
      } else {
        return Err(ChannelClosed);
      }
      if m.to != Some(self) {
        continue;
      }
      if m.from == 0 {
        return Err(InvalidIdentifier);
      }
      if m.from in senders {
        continue;
      }
      var body := Decode(m.payload);
      if body.None? {
        return Err(BadEncoding);
      }
      var q := codec.round2(body.value);
      if q.None? {
        return Err(BadPackage);
      }
      packages := packages[m.from := q.value];
      senders := senders + {m.from};
    }
    r := Ok((packages, early + queue));
  }

  // ---- Soundness on any input ----

  ghost predicate Gathered<P>(max: nat, self: nat, st: Gather<P>) {
    && self in st.all && st.all.Keys <= UpTo(max)
    && st.others.Keys == st.all.Keys - {self}
  }

  /** Whatever arrives, a finished first loop has a package of every other party and no one else. */
  lemma {:induction false} Round1Sound<P, Q>(codec: Codec<P, Q>, max: nat, self: nat, st: Gather<P>,
                                             rx: seq<ProtocolMessage>)
    requires self in UpTo(max) && Gathered(max, self, st) && Collect1(codec, max, self, st, rx).Ok?
    ensures var st' := Collect1(codec, max, self, st, rx).value.0;
            && st'.others.Keys == UpTo(max) - {self}
            && |st'.all| == max && |st'.others| == max - 1
    decreases rx
  {
    hide Decode;
    SubsetCount(st.all.Keys, UpTo(max));
    UpToCount(max);
    if |st.all| < max {
      Round1Sound(codec, max, self, Offer1(codec, max, self, st, rx[0]).value, rx[1..]);
    } else {
      assert |st.all| == |st.all.Keys| && |st.others| == |st.others.Keys|;
    }
  }

  /** The loops report errors of messages only. */
  lemma {:induction false} Round1Errors<P, Q>(codec: Codec<P, Q>, max: nat, self: nat, st: Gather<P>,
                                              rx: seq<ProtocolMessage>)
    ensures var r := Collect1(codec, max, self, st, rx);
            r.Err? ==> r.error in {ChannelClosed, InvalidIdentifier, BadEncoding, BadPackage}
    decreases rx
  {
    if |st.all| < max && rx != [] && Offer1(codec, max, self, st, rx[0]).Ok? {
      Round1Errors(codec, max, self, Offer1(codec, max, self, st, rx[0]).value, rx[1..]);
    }
  }

  /** Direct messages come from other parties of the session: the receiver proxy sees to that. */
  ghost predicate FromOthers(max: nat, self: nat, rx: seq<ProtocolMessage>) {
    forall m :: m in rx ==> m.from in UpTo(max) - {self}
  }

  lemma {:induction false} Round2Sound<P, Q>(codec: Codec<P, Q>, max: nat, self: nat, packages: map<nat, Q>,
                                             queue: seq<ProtocolMessage>)
    requires self in UpTo(max) && packages.Keys <= UpTo(max) - {self} && FromOthers(max, self, queue)
    requires Collect2(codec, max, self, packages, queue).Ok?
    ensures Collect2(codec, max, self, packages, queue).value.0.Keys == UpTo(max) - {self}
    decreases queue
  {
    hide Decode;
    SubsetCount(packages.Keys, UpTo(max) - {self});
    UpToCount(max);
    assert |packages| == |packages.Keys| && |UpTo(max) - {self}| == max - 1;
    if |packages| < max - 1 {
      assert queue[0] in queue;
      Round2Sound(codec, max, self, Offer2(codec, self, packages, queue[0]).value, queue[1..]);
    }
  }

  lemma {:induction false} DeferredFrom<P, Q>(codec: Codec<P, Q>, max: nat, self: nat, st: Gather<P>,
                                              rx: seq<ProtocolMessage>)
    requires FromOthers(max, self, rx) && FromOthers(max, self, st.deferred) && Collect1(codec, max, self, st, rx).Ok?
    ensures var r := Collect1(codec, max, self, st, rx).value; FromOthers(max, self, r.0.deferred + r.1)
    decreases rx
  {
    if |st.all| < max {
      assert rx[0] in rx;
      DeferredFrom(codec, max, self, Offer1(codec, max, self, st, rx[0]).value, rx[1..]);
    }
  }

  /** The count errors never occur, and a finished exchange has exactly one package of each kind per other party. */
  lemma DkgSound<P, Q>(codec: Codec<P, Q>, self: nat, threshold: nat, max: nat, own: P, part2: map<nat, P> -> bool,
                       rx: seq<ProtocolMessage>)
    requires self in UpTo(max)
    ensures RunDkg(codec, self, threshold, max, own, part2, rx) != Err(WrongTotal)
    ensures RunDkg(codec, self, threshold, max, own, part2, rx) != Err(WrongOthers)
    ensures RunDkg(codec, self, threshold, max, own, part2, rx).Ok? && FromOthers(max, self, rx) ==>
              && RunDkg(codec, self, threshold, max, own, part2, rx).value.round1.Keys == UpTo(max) - {self}
              && RunDkg(codec, self, threshold, max, own, part2, rx).value.round2.Keys == UpTo(max) - {self}
  {
    var st := Gather(map[self := own], map[], []);
    Round1Errors(codec, max, self, st, rx);
    var c1 := Collect1(codec, max, self, st, rx);
    if c1.Ok? {
      Round1Sound(codec, max, self, st, rx);
      Round2Errors(codec, max, self, map[], c1.value.0.deferred + c1.value.1);
      if FromOthers(max, self, rx) {
        DeferredFrom(codec, max, self, st, rx);
        if Collect2(codec, max, self, map[], c1.value.0.deferred + c1.value.1).Ok? {
          Round2Sound(codec, max, self, map[], c1.value.0.deferred + c1.value.1);
        }
      }
    }
  }

  lemma {:induction false} Round2Errors<P, Q>(codec: Codec<P, Q>, max: nat, self: nat, packages: map<nat, Q>,
                                              queue: seq<ProtocolMessage>)
    ensures var r := Collect2(codec, max, self, packages, queue);
            r.Err? ==> r.error in {ChannelClosed, InvalidIdentifier, BadEncoding, BadPackage}
    decreases queue
  {
    if |packages| < max - 1 && queue != [] && Offer2(codec, self, packages, queue[0]).Ok? {
      Round2Errors(codec, max, self, Offer2(codec, self, packages, queue[0]).value, queue[1..]);
    }
  }

  /**
    Which parameters key generation accepts: it can succeed only with a threshold from two to the number
    of parties and packages that the second part accepts, and reports the first condition that fails.
  */
  lemma DkgAccepts<P, Q>(codec: Codec<P, Q>, self: nat, threshold: nat, max: nat, own: P, part2: map<nat, P> -> bool,
                         rx: seq<ProtocolMessage>)
    ensures var r := RunDkg(codec, self, threshold, max, own, part2, rx);
            && (r.Ok? ==> self != 0 && 2 <= threshold <= max && part2(r.value.round1))
            && (self != 0 ==> (r == Err(ThresholdTooSmall) <==> threshold < 2))
            && (self != 0 && threshold >= 2 ==> (r == Err(ThresholdTooLarge) <==> threshold > max))
            && (self == 0 ==> r == Err(InvalidIdentifier))
            && (r == Err(Part2Failed) ==> 2 <= threshold <= max)
  {
    hide Collect1, Collect2;
    Round1Errors(codec, max, self, Gather(map[self := own], map[], []), rx);
    match Collect1(codec, max, self, Gather(map[self := own], map[], []), rx)
    case Err(_) =>
    case Ok((st, rest)) => Round2Errors(codec, max, self, map[], st.deferred + rest);
  }

  /** The second part fails exactly if it rejects the packages of a finished first loop. */
  lemma Part2FailedIff<P, Q>(codec: Codec<P, Q>, self: nat, threshold: nat, max: nat, own: P,
                             part2: map<nat, P> -> bool, rx: seq<ProtocolMessage>)
    requires self in UpTo(max) && 2 <= threshold <= max
    ensures var first := Collect1(codec, max, self, Gather(map[self := own], map[], []), rx);
            RunDkg(codec, self, threshold, max, own, part2, rx) == Err(Part2Failed) <==>
              first.Ok? && !part2(first.value.0.others)
  {
    hide Collect1, Collect2;
    var st0: Gather<P> := Gather(map[self := own], map[], []);
    Round1Errors(codec, max, self, st0, rx);
    var first := Collect1(codec, max, self, st0, rx);
    if first.Ok? {
      StartsGathered(max, self, own);
      Round1Sound(codec, max, self, st0, rx);
      Round2Errors(codec, max, self, map[], first.value.0.deferred + first.value.1);
    }
  }

  lemma StartsGathered<P>(max: nat, self: nat, own: P)
    requires self in UpTo(max)
    ensures Gathered(max, self, Gather(map[self := own], map[], []))
  {
  }
}
