/** Assembling a peer set: the proposer collects peers that accept until there are enough. */
module Negotiation {
  import opened Basics
  import opened Varint
  import opened Peers
  import opened PeersetCodec
  import opened StartCodec

  /** What a poll finds in the channel of responses. */
  datatype Answer = Accepted(peer: PeerId) | Failed | Nothing

  /** A poll; `listed` is the order in which the hash set of peers would be walked. */
  datatype Event = Event(answer: Answer, timedOut: bool, listed: seq<PeerId>)

  datatype Progress =
    | Collecting(peers: set<PeerId>)
    | Started(peerset: Peerset)
    | Aborted

  function Begin(local: PeerId): Progress {
    Collecting({local})
  }

  /** The peers after an answer. */
  function Add(peers: set<PeerId>, answer: Answer): set<PeerId> {
    if answer.Accepted? then peers + {answer.peer} else peers
  }

  ghost predicate Lists(listed: seq<PeerId>, peers: set<PeerId>) {
    Distinct(listed) && forall x :: x in listed <==> x in peers
  }

  function Poll(local: PeerId, n: nat, s: Progress, e: Event): Progress {
    match s
    case Collecting(peers) => (
      var more := Add(peers, e.answer);
      if e.answer.Accepted? && |more| == n then Started(New(e.listed, local))
      else if e.timedOut then Aborted
      else Collecting(more))
    case _ => s
  }

  /** The walk order of each event lists the peers collected by then. */
  ghost predicate Listing(local: PeerId, n: nat, events: seq<Event>) {
    events != [] ==>
      && Listing(local, n, events[..|events| - 1])
      && var s, e := Run(local, n, events[..|events| - 1]), events[|events| - 1];
         s.Collecting? ==> Lists(e.listed, Add(s.peers, e.answer))
  }

  function Run(local: PeerId, n: nat, events: seq<Event>): Progress {
    if events == [] then Begin(local)
    else Poll(local, n, Run(local, n, events[..|events| - 1]), events[|events| - 1])
  }

  /** The proposer and all that accepted. */
  function Willing(local: PeerId, events: seq<Event>): set<PeerId> {
    if events == [] then {local} else Add(Willing(local, events[..|events| - 1]), events[|events| - 1].answer)
  }

  // ---- Outcome ----

  lemma {:induction false} ListedCount(listed: seq<PeerId>, peers: set<PeerId>)
    requires Lists(listed, peers)
    ensures |listed| == |peers|
  {
    if listed == [] {
      assert peers == {};
    } else {
      var p := listed[0];
      assert listed == [p] + listed[1..];
      assert p in peers && p !in listed[1..];
      assert forall x :: x in listed[1..] <==> x in peers - {p};
      ListedCount(listed[1..], peers - {p});
    }
  }

  /** A start carries exactly n distinct peers in ascending order, the proposer and others that accepted. */
  ghost predicate GoodStart(local: PeerId, n: nat, willing: set<PeerId>, p: Peerset) {
    && p.local == local && |p.peers| == |p.parties| == n && Ascending(p.peers)
    && local in p.peers && (forall x :: x in p.peers ==> x in willing)
    && (forall i :: 0 <= i < n ==> p.parties[i] == i)
  }

  ghost predicate Good(local: PeerId, n: nat, willing: set<PeerId>, s: Progress) {
    match s
    case Collecting(peers) => peers == willing && local in peers && |peers| < n
    case Started(p) => GoodStart(local, n, willing, p)
    case Aborted => true
  }

  lemma StartIsGood(local: PeerId, n: nat, peers: set<PeerId>, listed: seq<PeerId>)
    requires Lists(listed, peers) && |peers| == n && local in peers
    ensures GoodStart(local, n, peers, New(listed, local))
  {
    ListedCount(listed, peers);
    SortAscending(listed);
  }

  lemma PollIsGood(local: PeerId, n: nat, willing: set<PeerId>, s: Progress, e: Event)
    requires Good(local, n, willing, s)
    requires s.Collecting? ==> Lists(e.listed, Add(s.peers, e.answer))
    ensures Good(local, n, Add(willing, e.answer), Poll(local, n, s, e))
  {
    hide GoodStart, Lists, New;
    match s
    case Collecting(peers) =>
      assert e.answer.Accepted? && e.answer.peer in peers ==> Add(peers, e.answer) == peers;
      if e.answer.Accepted? && |Add(peers, e.answer)| == n {
        StartIsGood(local, n, Add(peers, e.answer), e.listed);
      }
    case Started(p) => StillGood(local, n, willing, Add(willing, e.answer), p);
    case Aborted =>
  }

  lemma StillGood(local: PeerId, n: nat, willing: set<PeerId>, more: set<PeerId>, p: Peerset)
    requires GoodStart(local, n, willing, p) && willing <= more
    ensures GoodStart(local, n, more, p)
  {
  }

  /**
    Over any sequence of responses, for n >= 2: while collecting, the peers are the proposer and
    those that accepted, and fewer than n; a start is good in the sense above.
  */
  lemma {:induction false} NegotiationOutcome(local: PeerId, n: nat, events: seq<Event>)
    requires n >= 2 && Listing(local, n, events)
    ensures Good(local, n, Willing(local, events), Run(local, n, events))
  {
    if events != [] {
      hide Good, Poll, Lists;
      NegotiationOutcome(local, n, events[..|events| - 1]);
      PollIsGood(local, n, Willing(local, events[..|events| - 1]), Run(local, n, events[..|events| - 1]),
          events[|events| - 1]);
    }
  }

  /** Without a timeout, the session starts exactly when n peers, the proposer included, are willing. */
  lemma {:induction false} StartsIff(local: PeerId, n: nat, events: seq<Event>)
    requires n >= 2 && Listing(local, n, events)
    requires forall i :: 0 <= i < |events| ==> !events[i].timedOut
    ensures Run(local, n, events).Started? <==> |Willing(local, events)| >= n
    ensures !Run(local, n, events).Aborted?
  {
    hide Lists, GoodStart, New;
    NegotiationOutcome(local, n, events);
    if events != [] {
      var before := events[..|events| - 1];
      StartsIff(local, n, before);
      NegotiationOutcome(local, n, before);
      SubsetCount(Willing(local, before), Willing(local, events));
    }
  }

  /** A start needs n willing peers. */
  lemma StartedNeeds(local: PeerId, n: nat, willing: set<PeerId>, p: Peerset)
    requires GoodStart(local, n, willing, p)
    ensures |willing| >= n
  {
    var members := set x | x in p.peers;
    AscendingDistinct(p.peers);
    ListedCount(p.peers, members);
    SubsetCount(members, willing);
  }

  lemma {:induction false} WillingGrows(local: PeerId, events: seq<Event>, i: nat)
    requires i <= |events|
    ensures Willing(local, events[..i]) <= Willing(local, events)
  {
    if i < |events| {
      WillingGrows(local, events[..|events| - 1], i);
      assert events[..|events| - 1][..i] == events[..i];
    } else {
      assert events[..i] == events;
    }
  }

  /** The timer ran out at a poll by which fewer than n peers were willing. */
  ghost predicate RanOut(local: PeerId, n: nat, events: seq<Event>, i: nat) {
    i < |events| && events[i].timedOut && |Willing(local, events[..i + 1])| < n
  }

  /**
    The timer ends a negotiation: for n >= 2, it is aborted if and only if the timer ran out at a poll
    by which fewer than n peers, the proposer included, were willing.
  */
  lemma {:induction false} AbortedIff(local: PeerId, n: nat, events: seq<Event>)
    requires n >= 2 && Listing(local, n, events)
    ensures Run(local, n, events).Aborted? <==> exists i: nat :: RanOut(local, n, events, i)
  {
    if events == [] {
      assert forall i: nat :: !RanOut(local, n, events, i);
    } else {
      hide Lists, New, Good;
      var init, last := events[..|events| - 1], |events| - 1;
      AbortedIff(local, n, init);
      NegotiationOutcome(local, n, init);
      LastPoll(local, n, events);
      if Run(local, n, events).Aborted? {
        if Run(local, n, init).Aborted? {
          var i: nat :| RanOut(local, n, init, i);
          assert init[..i + 1] == events[..i + 1];
          assert RanOut(local, n, events, i);
        } else {
          assert RanOut(local, n, events, last);
        }
      }
      if i: nat :| RanOut(local, n, events, i) {
        if i < last {
          assert init[..i + 1] == events[..i + 1];
          assert RanOut(local, n, init, i);
        }
      }
    }
  }

  lemma LastPoll(local: PeerId, n: nat, events: seq<Event>)
    requires n >= 2 && events != [] && Listing(local, n, events)
    ensures var init, last := events[..|events| - 1], |events| - 1;
            var before := Run(local, n, init);
            && (before.Aborted? ==> Run(local, n, events).Aborted?)
            && (!before.Aborted? ==> (Run(local, n, events).Aborted? <==> RanOut(local, n, events, last)))
  {
    hide Lists, New;
    var init, e := events[..|events| - 1], events[|events| - 1];
    var before, willing := Run(local, n, init), Willing(local, init);
    assert events[..|events| - 1 + 1] == events;
    NegotiationOutcome(local, n, init);
    match before
    case Collecting(peers) =>
      assert e.answer.Accepted? && e.answer.peer in peers ==> Add(peers, e.answer) == peers;
    case Started(p) =>
      StartedNeeds(local, n, willing, p);
      SubsetCount(willing, Willing(local, events));
    case Aborted =>
  }

  /** A proposer that needs only itself never starts, unless it answers its own broadcast. */
  lemma {:induction false} AloneNeverStarts(local: PeerId, events: seq<Event>)
    requires forall i :: 0 <= i < |events| ==> events[i].answer != Accepted(local)
    ensures !Run(local, 1, events).Started?
    ensures Run(local, 1, events).Collecting? ==> local in Run(local, 1, events).peers
  {
    if events != [] {
      hide New;
      AloneNeverStarts(local, events[..|events| - 1]);
      var s, e := Run(local, 1, events[..|events| - 1]), events[|events| - 1];
      if s.Collecting? && e.answer.Accepted? {
        assert e.answer.peer != local;
        SubsetCount({local, e.answer.peer}, Add(s.peers, e.answer));
      }
    }
  }

  // ---- What the members make of it ----

  /** Who has which index: the position in the shared order, from 0 to n - 1. */
  ghost predicate SharedBijection(order: seq<PeerId>, mine: Peerset, n: nat) {
    && mine.peers == order && |order| == n
    && (forall i :: 0 <= i < n ==> mine.IndexOf(order[i]) == Some(i))
    && (forall x :: mine.IndexOf(x).Some? <==> x in order)
  }

  lemma AscendingIndices(p: Peerset)
    requires Ascending(p.peers)
    ensures SharedBijection(p.peers, p, |p.peers|)
  {
    forall i | 0 <= i < |p.peers| ensures p.IndexOf(p.peers[i]) == Some(i) {
      IndexAt(p.peers, i);
    }
  }

  /**
    From the proposer's collected answers to the members' indices: if the start message fits the
    writer's buffer, every member that reads what was sent gets the proposer's order, and so the same
    one-to-one assignment of the indices 0..n-1 as every other.
  */
  lemma MembersAgree(valid: Bytes -> bool, local: PeerId, n: nat, events: seq<Event>, body: Bytes, capacity: nat,
                     sent: Bytes, member: PeerId)
    requires n >= 2 && Listing(local, n, events) && Run(local, n, events).Started?
    requires var p := Run(local, n, events).peerset;
             && Encodable(valid, p) && |Encode(p)| < U64 && |body| < U64
             && SentFor(StartMsg(p, body), capacity, sent) && |EncodeStart(StartMsg(p, body))| <= capacity
    ensures var p := Run(local, n, events).peerset;
            var read := DecodeStart(valid, sent, member);
            && read.Ok? && read.value.body == body && read.value.peerset.local == member
            && SharedBijection(p.peers, p, n) && SharedBijection(p.peers, read.value.peerset, n)
  {
    hide Encode, EncodeStart, DecodeStart, Encodable, SharedBijection, SentFor;
    var p := Run(local, n, events).peerset;
    SentWholeIff(StartMsg(p, body), capacity, sent);
    NegotiationOutcome(local, n, events);
    StartRoundTrip(valid, StartMsg(p, body), member);
    AscendingIndices(p);
    AscendingIndices(p.(local := member));
  }

  // ---- The channel ----

  /** Walks a set in some order. */
  method Listed(peers: set<PeerId>) returns (listed: seq<PeerId>)
    ensures Lists(listed, peers)
  {
    listed := [];
    var rest := peers;
    while rest != {}
      invariant rest <= peers && Lists(listed, peers - rest)
    {
      var p :| p in rest;
      listed, rest := listed + [p], rest - {p};
    }
  }

  class NegotiationChannel {
    const n: nat
    const local: PeerId
    var peers: set<PeerId>

    constructor (n: nat, local: PeerId)
      ensures this.n == n && this.local == local && Collecting(peers) == Begin(local)
    {
      this.n, this.local, peers := n, local, {local};
    }

    /** One poll; the peer set of a start does not depend on the order the hash set is walked in. */
    method PollOnce(answer: Answer, timedOut: bool) returns (s: Progress)
      modifies this
      ensures forall listed :: Lists(listed, Add(old(peers), answer)) ==>
                                 s == Poll(local, n, Collecting(old(peers)), Event(answer, timedOut, listed))
      ensures s.Collecting? ==> s.peers == peers
    {
      if answer.Accepted? {
        peers := peers + {answer.peer};
        if |peers| == n {
          var walked := Listed(peers);
          s := Started(New(walked, local));
          forall listed | Lists(listed, peers) ensures New(listed, local) == New(walked, local) {
            SameNew(listed, walked, peers, local);
          }
          return;
        }
      }
      s := if timedOut then Aborted else Collecting(peers);
    }
  }

  lemma SameNew(a: seq<PeerId>, b: seq<PeerId>, peers: set<PeerId>, local: PeerId)
    requires Lists(a, peers) && Lists(b, peers)
    ensures New(a, local) == New(b, local)
  {
    ListedCount(a, peers);
    ListedCount(b, peers);
    SortAscending(a);
    SortAscending(b);
    AscendingUnique(Sort(a), Sort(b));
  }
}
