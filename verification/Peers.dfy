/** Peer sets: the order of peers by their bytes, which fixes every party's session index. */
module Peers {
  import opened Basics

  /** A peer id, as its bytes. */
  type PeerId = Bytes

  /** Lexicographic order of byte strings. */
  predicate Less(a: Bytes, b: Bytes) {
    if b == [] then false
    else if a == [] then true
    else if a[0] != b[0] then a[0] < b[0]
    else Less(a[1..], b[1..])
  }

  lemma {:induction false} LessIrreflexive(a: Bytes)
    ensures !Less(a, a)
  {
    if a != [] {
      LessIrreflexive(a[1..]);
    }
  }

  lemma {:induction false} LessTransitive(a: Bytes, b: Bytes, c: Bytes)
    requires Less(a, b) && Less(b, c)
    ensures Less(a, c)
  {
    if a != [] && a[0] == b[0] == c[0] {
      LessTransitive(a[1..], b[1..], c[1..]);
    }
  }

  lemma {:induction false} LessTotal(a: Bytes, b: Bytes)
    ensures a == b || Less(a, b) || Less(b, a)
  {
    if a != [] && b != [] && a[0] == b[0] {
      LessTotal(a[1..], b[1..]);
      assert a == [a[0]] + a[1..] && b == [b[0]] + b[1..];
    }
  }

  ghost predicate Ascending(peers: seq<PeerId>) {
    forall i, j :: 0 <= i < j < |peers| ==> Less(peers[i], peers[j])
  }

  ghost predicate Distinct(peers: seq<PeerId>) {
    forall i, j :: 0 <= i < j < |peers| ==> peers[i] != peers[j]
  }

  function Insert(p: PeerId, peers: seq<PeerId>): (r: seq<PeerId>)
    ensures |r| == |peers| + 1
    ensures forall x :: x in r <==> x == p || x in peers
  {
    if peers == [] || !Less(peers[0], p) then [p] + peers
    else
      assert peers == [peers[0]] + peers[1..];
      [peers[0]] + Insert(p, peers[1..])
  }

  function Sort(peers: seq<PeerId>): (r: seq<PeerId>)
    ensures |r| == |peers|
    ensures forall x :: x in r <==> x in peers
  {
    if peers == [] then []
    else
      assert peers == [peers[0]] + peers[1..];
      Insert(peers[0], Sort(peers[1..]))
  }

  lemma AscendingCons(p: PeerId, peers: seq<PeerId>)
    requires Ascending(peers) && forall x :: x in peers ==> Less(p, x)
    ensures Ascending([p] + peers)
  {
    assert forall k :: 0 <= k < |peers| ==> peers[k] in peers;
  }

  lemma AscendingTail(peers: seq<PeerId>)
    requires Ascending(peers) && peers != []
    ensures Ascending(peers[1..]) && forall x :: x in peers[1..] ==> Less(peers[0], x)
  {
    forall x | x in peers[1..] ensures Less(peers[0], x) {
      var k :| 0 <= k < |peers[1..]| && peers[1..][k] == x;
      assert peers[k + 1] == x;
    }
  }

  lemma {:induction false} InsertAscending(p: PeerId, peers: seq<PeerId>)
    requires Ascending(peers) && p !in peers
    ensures Ascending(Insert(p, peers))
  {
    if peers == [] {
      AscendingCons(p, peers);
    } else {
      AscendingTail(peers);
      assert peers[0] in peers && peers == [peers[0]] + peers[1..];
      LessTotal(p, peers[0]);
      if !Less(peers[0], p) {
        forall x | x in peers ensures Less(p, x) {
          if x != peers[0] {
            LessTransitive(p, peers[0], x);
          }
        }
        AscendingCons(p, peers);
      } else {
        InsertAscending(p, peers[1..]);
        AscendingCons(peers[0], Insert(p, peers[1..]));
      }
    }
  }

  lemma {:induction false} SortAscending(peers: seq<PeerId>)
    requires Distinct(peers)
    ensures Ascending(Sort(peers))
  {
    if peers != [] {
      assert forall i :: 0 < i < |peers| ==> peers[i] == peers[1..][i - 1];
      SortAscending(peers[1..]);
      assert peers[0] !in peers[1..];
      InsertAscending(peers[0], Sort(peers[1..]));
    }
  }

  lemma AscendingDistinct(peers: seq<PeerId>)
    requires Ascending(peers)
    ensures Distinct(peers)
  {
    forall i, j | 0 <= i < j < |peers| ensures peers[i] != peers[j] {
      LessIrreflexive(peers[i]);
      assert Less(peers[i], peers[j]);
    }
  }

  /** The least element comes first. */
  lemma FirstIsLeast(a: seq<PeerId>, b: seq<PeerId>)
    requires Ascending(a) && Ascending(b) && a != [] && b != []
    requires forall x :: x in a <==> x in b
    ensures a[0] == b[0]
  {
    assert a[0] in b && b[0] in a;
    if a[0] != b[0] {
      var i :| 0 <= i < |b| && b[i] == a[0];
      var j :| 0 <= j < |a| && a[j] == b[0];
      assert Less(b[0], b[i]) && Less(a[0], a[j]);
      LessTransitive(a[0], b[0], a[0]);
      LessIrreflexive(a[0]);
    }
  }

  lemma Inhabited(peers: seq<PeerId>)
    ensures peers == [] || exists x :: x in peers
  {
    if peers != [] {
      assert peers[0] in peers;
    }
  }

  /** A set of peers has only one ascending order, whatever order it was listed in. */
  lemma {:induction false} AscendingUnique(a: seq<PeerId>, b: seq<PeerId>)
    requires Ascending(a) && Ascending(b) && forall x :: x in a <==> x in b
    ensures a == b
  {
    Inhabited(a);
    Inhabited(b);
    if a != [] {
      FirstIsLeast(a, b);
      AscendingTail(a);
      AscendingTail(b);
      LessIrreflexive(a[0]);
      assert a == [a[0]] + a[1..] && b == [b[0]] + b[1..];
      forall x ensures x in a[1..] <==> x in b[1..] {
        assert x in a[1..] <==> x in a && x != a[0];
        assert x in b[1..] <==> x in b && x != b[0];
      }
      AscendingUnique(a[1..], b[1..]);
    }
  }

  // ---- Peer sets ----

  datatype Peerset = Peerset(local: PeerId, peers: seq<PeerId>, parties: seq<nat>)
  {
    /** The zero-based session index of a peer. */
    function IndexOf(p: PeerId): (r: Option<nat>)
      ensures r.Some? ==> r.value < |peers| && peers[r.value] == p && p !in peers[..r.value]
      ensures r.None? ==> p !in peers
    {
      FirstIndex(peers, p)
    }

    /** Everyone but the local peer, in order. */
    function Remotes(): seq<PeerId> {
      Without(peers, local)
    }
  }

  function FirstIndex(peers: seq<PeerId>, p: PeerId): (r: Option<nat>)
    ensures r.Some? ==> r.value < |peers| && peers[r.value] == p && p !in peers[..r.value]
    ensures r.None? ==> p !in peers
  {
    if peers == [] then None
    else if peers[0] == p then Some(0)
    else
      match FirstIndex(peers[1..], p)
      case None =>
        assert peers == [peers[0]] + peers[1..];
        None
      case Some(i) =>
        assert peers[..i + 1] == [peers[0]] + peers[1..][..i];
        Some(i + 1)
  }

  function Without(peers: seq<PeerId>, p: PeerId): seq<PeerId> {
    if peers == [] then []
    else (if peers[0] == p then [] else [peers[0]]) + Without(peers[1..], p)
  }

  /** A peer set from peers listed in any order. */
  function New(listed: seq<PeerId>, local: PeerId): (r: Peerset)
    ensures r.local == local && |r.peers| == |r.parties| == |listed|
    ensures forall x :: x in r.peers <==> x in listed
  {
    Peerset(local, Sort(listed), seq(|listed|, i => i))
  }

  /** Indices are one bijection between the members and 0..n-1, the same for everyone. */
  lemma SharedIndices(a: seq<PeerId>, b: seq<PeerId>, localA: PeerId, localB: PeerId, i: nat)
    requires Distinct(a) && Distinct(b) && (forall x :: x in a <==> x in b) && i < |a|
    ensures New(a, localA).peers == New(b, localB).peers
    ensures New(a, localA).IndexOf(New(b, localB).peers[i]) == Some(i)
  {
    SortAscending(a);
    SortAscending(b);
    AscendingUnique(Sort(a), Sort(b));
    IndexAt(Sort(a), i);
  }

  lemma IndexAt(peers: seq<PeerId>, i: nat)
    requires Ascending(peers) && i < |peers|
    ensures FirstIndex(peers, peers[i]) == Some(i)
  {
    AscendingDistinct(peers);
    var r := FirstIndex(peers, peers[i]);
    assert peers[i] in peers;
    assert forall k :: 0 <= k < |peers| && i < k ==> peers[..k][i] == peers[i];
  }

  /** A broadcast goes to the n - 1 other members, each once, and not to its sender. */
  lemma {:induction false} RemotesCover(peers: seq<PeerId>, local: PeerId)
    requires Ascending(peers)
    ensures Ascending(Without(peers, local))
    ensures forall x :: x in Without(peers, local) <==> x in peers && x != local
    ensures |Without(peers, local)| == |peers| - if local in peers then 1 else 0
  {
    if peers != [] {
      AscendingTail(peers);
      LessIrreflexive(peers[0]);
      assert peers == [peers[0]] + peers[1..];
      RemotesCover(peers[1..], local);
      if peers[0] != local {
        AscendingCons(peers[0], Without(peers[1..], local));
      } else {
        assert local !in peers[1..];
      }
    }
  }
}
