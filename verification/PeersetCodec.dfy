/** The bytes of a peer set, and the buffered writer and reader that its coding goes through. */
module PeersetCodec {
  import opened Basics
  import opened Varint
  import opened Peers

  /** A malformed number or peer id, or an input that ends inside a block. */
  datatype CodecError = InvalidInput | UnexpectedEnd

  // ---- The format ----

  /** Bytes preceded by their number. */
  function Block(b: Bytes): (r: Bytes)
    ensures r != []
  {
    Varint.Write(|b|) + b
  }

  function Blocks(bs: seq<Bytes>): Bytes {
    if bs == [] then [] else Block(bs[0]) + Blocks(bs[1..])
  }

  function Numbers(ns: seq<nat>): Bytes {
    if ns == [] then [] else Varint.Write(ns[0]) + Numbers(ns[1..])
  }

  function Encode(p: Peerset): Bytes {
    Block(p.local) + (Varint.Write(|p.peers|) + (Blocks(p.peers) + (Varint.Write(|p.parties|) + Numbers(p.parties))))
  }

  type Parse<T> = Result<(T, Bytes), CodecError>

  function TakeNumber(b: Bytes): (r: Parse<nat>)
    ensures r.Ok? ==> |r.value.1| < |b|
  {
    match ReadU64(b)
    case Ok(v) => Ok(v)
    case Err(_) => Err(InvalidInput)
  }

  function TakeExact(b: Bytes, n: nat): Parse<Bytes> {
    if n <= |b| then Ok((b[..n], b[n..])) else Err(UnexpectedEnd)
  }

  function TakeBlock(b: Bytes): Parse<Bytes> {
    match TakeNumber(b)
    case Ok((n, rest)) => TakeExact(rest, n)
    case Err(e) => Err(e)
  }

  /** A block that holds a peer id. */
  function TakePeer(valid: Bytes -> bool, b: Bytes): Parse<PeerId> {
    match TakeBlock(b)
    case Ok((id, rest)) => if valid(id) then Ok((id, rest)) else Err(InvalidInput)
    case Err(e) => Err(e)
  }

  function Prepend<T>(xs: seq<T>, r: Parse<seq<T>>): Parse<seq<T>> {
    match r
    case Ok((ys, rest)) => Ok((xs + ys, rest))
    case Err(e) => Err(e)
  }

  function TakePeers(valid: Bytes -> bool, b: Bytes, n: nat): Parse<seq<PeerId>>
    decreases n
  {
    if n == 0 then Ok(([], b))
    else
      match TakePeer(valid, b)
      case Ok((id, rest)) => Prepend([id], TakePeers(valid, rest, n - 1))
      case Err(e) => Err(e)
  }

  function TakeNumbers(b: Bytes, n: nat): Parse<seq<nat>>
    decreases n
  {
    if n == 0 then Ok(([], b))
    else
      match TakeNumber(b)
      case Ok((k, rest)) => Prepend([k], TakeNumbers(rest, n - 1))
      case Err(e) => Err(e)
  }

  function TakeAllPeers(valid: Bytes -> bool, b: Bytes): Parse<seq<PeerId>> {
    match TakeNumber(b)
    case Ok((n, rest)) => TakePeers(valid, rest, n)
    case Err(e) => Err(e)
  }

  function TakeAllNumbers(b: Bytes): Parse<seq<nat>> {
    match TakeNumber(b)
    case Ok((n, rest)) => TakeNumbers(rest, n)
    case Err(e) => Err(e)
  }

  /** The peer set as its receiver reads it: with the receiver as the local peer. */
  function Decode(valid: Bytes -> bool, b: Bytes, local: PeerId): Result<Peerset, CodecError> {
    match TakePeer(valid, b)
    case Err(e) => Err(e)
    case Ok((_, b1)) =>
      match TakeAllPeers(valid, b1)
      case Err(e) => Err(e)
      case Ok((peers, b2)) =>
        match TakeAllNumbers(b2)
        case Err(e) => Err(e)
        case Ok((parties, _)) => Ok(Peerset(local, peers, parties))
  }

  // ---- Round trip ----

  lemma BlockTrip(b: Bytes, rest: Bytes)
    requires |b| < U64
    ensures TakeBlock(Block(b) + rest) == Ok((b, rest))
  {
    hide ReadU64, Varint.Write;
    RoundTripU64(|b|, b + rest);
    Regroup(Varint.Write(|b|), b, rest);
    assert (b + rest)[..|b|] == b && (b + rest)[|b|..] == rest;
  }

  /** Ids that the peer id parser accepts, of a length and number that fit the format. */
  ghost predicate Encodable(valid: Bytes -> bool, p: Peerset) {
    && valid(p.local) && |p.local| < U64 && |p.peers| < U64 && |p.parties| < U64
    && (forall i :: 0 <= i < |p.peers| ==> valid(p.peers[i]) && |p.peers[i]| < U64)
    && (forall i :: 0 <= i < |p.parties| ==> p.parties[i] < U64)
  }

  lemma PeerTrip(valid: Bytes -> bool, id: PeerId, rest: Bytes)
    requires valid(id) && |id| < U64
    ensures TakePeer(valid, Block(id) + rest) == Ok((id, rest))
  {
    hide Block, TakeBlock;
    BlockTrip(id, rest);
  }

  lemma {:induction false} PeersTrip(valid: Bytes -> bool, peers: seq<PeerId>, rest: Bytes)
    requires forall i :: 0 <= i < |peers| ==> valid(peers[i]) && |peers[i]| < U64
    ensures TakePeers(valid, Blocks(peers) + rest, |peers|) == Ok((peers, rest))
  {
    if peers == [] {
      assert [] + rest == rest;
    } else {
      hide Block, TakePeer;
      PeersTrip(valid, peers[1..], rest);
      Regroup(Block(peers[0]), Blocks(peers[1..]), rest);
      PeerTrip(valid, peers[0], Blocks(peers[1..]) + rest);
      assert peers == [peers[0]] + peers[1..];
    }
  }

  lemma {:induction false} NumbersTrip(ns: seq<nat>, rest: Bytes)
    requires forall i :: 0 <= i < |ns| ==> ns[i] < U64
    ensures TakeNumbers(Numbers(ns) + rest, |ns|) == Ok((ns, rest))
  {
    if ns == [] {
      assert [] + rest == rest;
    } else {
      hide ReadU64, Varint.Write;
      NumbersTrip(ns[1..], rest);
      Regroup(Varint.Write(ns[0]), Numbers(ns[1..]), rest);
      RoundTripU64(ns[0], Numbers(ns[1..]) + rest);
      assert ns == [ns[0]] + ns[1..];
    }
  }

  lemma PeersPart(valid: Bytes -> bool, peers: seq<PeerId>, rest: Bytes)
    requires |peers| < U64 && forall i :: 0 <= i < |peers| ==> valid(peers[i]) && |peers[i]| < U64
    ensures TakeAllPeers(valid, Varint.Write(|peers|) + (Blocks(peers) + rest)) == Ok((peers, rest))
  {
    hide ReadU64, Varint.Write, Blocks, TakePeers;
    RoundTripU64(|peers|, Blocks(peers) + rest);
    PeersTrip(valid, peers, rest);
  }

  lemma NumbersPart(ns: seq<nat>)
    requires |ns| < U64 && forall i :: 0 <= i < |ns| ==> ns[i] < U64
    ensures TakeAllNumbers(Varint.Write(|ns|) + Numbers(ns)) == Ok((ns, []))
  {
    hide ReadU64, Varint.Write, Numbers, TakeNumbers;
    RoundTripU64(|ns|, Numbers(ns));
    NumbersTrip(ns, []);
    assert Numbers(ns) + [] == Numbers(ns);
  }

  /** Every receiver reads back the same peers and parties, in the same order. */
  lemma PeersetRoundTrip(valid: Bytes -> bool, p: Peerset, local: PeerId)
    requires Encodable(valid, p)
    ensures Decode(valid, Encode(p), local) == Ok(p.(local := local))
  {
    hide TakePeer, Block, Varint.Write, Blocks, Numbers, TakeAllPeers, TakeAllNumbers;
    var tail := Varint.Write(|p.parties|) + Numbers(p.parties);
    var rest := Varint.Write(|p.peers|) + (Blocks(p.peers) + tail);
    PeerTrip(valid, p.local, rest);
    PeersPart(valid, p.peers, tail);
    NumbersPart(p.parties);
  }

  // ---- Writing ----

  lemma {:induction false} BlocksMore(bs: seq<Bytes>, b: Bytes)
    ensures Blocks(bs + [b]) == Blocks(bs) + Block(b)
  {
    hide Block;
    if bs == [] {
      assert [] + [b] == [b] && [b][1..] == [];
    } else {
      assert (bs + [b])[1..] == bs[1..] + [b];
      BlocksMore(bs[1..], b);
    }
  }

  lemma {:induction false} NumbersMore(ns: seq<nat>, n: nat)
    ensures Numbers(ns + [n]) == Numbers(ns) + Varint.Write(n)
  {
    hide Varint.Write;
    if ns == [] {
      assert [] + [n] == [n] && [n][1..] == [];
    } else {
      assert (ns + [n])[1..] == ns[1..] + [n];
      NumbersMore(ns[1..], n);
    }
  }

  /** The last bytes of a whole. */
  predicate IsTail(b: Bytes, whole: Bytes) {
    |b| <= |whole| && b == whole[|whole| - |b|..]
  }

  /** A buffered writer over a byte vector; only what is still buffered can be seen through it. */
  class BufWriter {
    const capacity: nat
    var buffer: Bytes
    var flushed: Bytes
    ghost var pieces: nat // non-empty writes so far

    ghost function Written(): Bytes
      reads this
    {
      flushed + buffer
    }

    /** Nothing leaves the buffer before the writes overflow it, or one write fills it alone. */
    ghost predicate Valid()
      reads this
    {
      && |buffer| <= capacity && (pieces == 0 <==> Written() == [])
      && (|Written()| < capacity || (|Written()| == capacity && pieces >= 2) ==> flushed == [])
    }

    constructor (capacity: nat)
      ensures Valid() && Written() == [] && pieces == 0 && this.capacity == capacity
    {
      this.capacity := capacity;
      buffer, flushed, pieces := [], [], 0;
    }

    method WriteAll(data: Bytes)
      requires Valid()
      modifies this
      ensures Valid() && Written() == old(Written()) + data
      ensures pieces == old(pieces) + if data == [] then 0 else 1
    {
      ghost var before := Written();
      if |data| > capacity - |buffer| {
        flushed, buffer := flushed + buffer, [];
      }
      if |data| >= capacity {
        flushed := flushed + buffer + data;
        buffer := [];
      } else {
        buffer := buffer + data;
      }
      pieces := pieces + if data == [] then 0 else 1;
      assert Written() == before + data;
    }

    /** The buffer shows all that was written exactly if it has room for it. */
    lemma BufferIff()
      requires Valid() && pieces >= 2
      ensures buffer == Written() <==> |Written()| <= capacity
      ensures IsTail(buffer, Written()) && |buffer| <= capacity
    {
    }
  }

  /** Writes the bytes with their number in front. */
  method WriteBlock(io: BufWriter, b: Bytes)
    requires io.Valid()
    modifies io
    ensures io.Valid() && io.Written() == old(io.Written()) + Block(b) && io.pieces > old(io.pieces)
  {
    io.WriteAll(Varint.Write(|b|));
    io.WriteAll(b);
    Regroup(old(io.Written()), Varint.Write(|b|), b);
  }

  method WritePeers(io: BufWriter, peers: seq<PeerId>)
    requires io.Valid()
    modifies io
    ensures io.Valid() && io.Written() == old(io.Written()) + (Varint.Write(|peers|) + Blocks(peers))
    ensures io.pieces > old(io.pieces)
  {
    hide Block;
    io.WriteAll(Varint.Write(|peers|));
    for i := 0 to |peers|
      invariant io.Valid() && io.pieces > old(io.pieces)
      invariant io.Written() == old(io.Written()) + (Varint.Write(|peers|) + Blocks(peers[..i]))
    {
      WriteBlock(io, peers[i]);
      BlocksMore(peers[..i], peers[i]);
      assert peers[..i + 1] == peers[..i] + [peers[i]];
      Regroup(Varint.Write(|peers|), Blocks(peers[..i]), Block(peers[i]));
      Regroup(old(io.Written()), Varint.Write(|peers|) + Blocks(peers[..i]), Block(peers[i]));
    }
    assert peers[..|peers|] == peers;
  }

  method WriteNumbers(io: BufWriter, ns: seq<nat>)
    requires io.Valid()
    modifies io
    ensures io.Valid() && io.Written() == old(io.Written()) + (Varint.Write(|ns|) + Numbers(ns))
    ensures io.pieces > old(io.pieces)
  {
    io.WriteAll(Varint.Write(|ns|));
    for i := 0 to |ns|
      invariant io.Valid() && io.pieces > old(io.pieces)
      invariant io.Written() == old(io.Written()) + (Varint.Write(|ns|) + Numbers(ns[..i]))
    {
      io.WriteAll(Varint.Write(ns[i]));
      NumbersMore(ns[..i], ns[i]);
      assert ns[..i + 1] == ns[..i] + [ns[i]];
      Regroup(Varint.Write(|ns|), Numbers(ns[..i]), Varint.Write(ns[i]));
      Regroup(old(io.Written()), Varint.Write(|ns|) + Numbers(ns[..i]), Varint.Write(ns[i]));
    }
    assert ns[..|ns|] == ns;
  }

  lemma InParts(local: Bytes, peers: Bytes, blocks: Bytes, parties: Bytes, numbers: Bytes)
    ensures local + (peers + blocks) + (parties + numbers) == local + (peers + (blocks + (parties + numbers)))
  {
  }

  /**
    The bytes of a peer set, as far as they are still in the writer's buffer: the whole encoding if
    and only if it fits.
  */
  method ToBytes(p: Peerset, capacity: nat) returns (b: Bytes)
    ensures b == Encode(p) <==> |Encode(p)| <= capacity
    ensures IsTail(b, Encode(p)) && |b| <= capacity
  {
    hide Varint.Write, Block, Blocks, Numbers;
    var io := new BufWriter(capacity);
    WriteBlock(io, p.local);
    WritePeers(io, p.peers);
    WriteNumbers(io, p.parties);
    InParts(Block(p.local), Varint.Write(|p.peers|), Blocks(p.peers), Varint.Write(|p.parties|), Numbers(p.parties));
    assert io.Written() == Encode(p);
    io.BufferIff();
    b := io.buffer;
  }

  // ---- Reading ----

  class ByteReader {
    var rest: Bytes

    constructor (b: Bytes)
      ensures rest == b
    {
      rest := b;
    }

    /** Reads a number byte by byte. */
    method ReadNumber() returns (r: Result<nat, CodecError>)
      modifies this
      ensures match TakeNumber(old(rest))
              case Ok((n, after)) => r == Ok(n) && rest == after
              case Err(e) => r == Err(e)
    {
      match ReadU64(rest)
      case Ok((n, after)) =>
        rest := after;
        r := Ok(n);
      case Err(_) =>
        r := Err(InvalidInput);
    }

    method ReadExact(n: nat) returns (r: Result<Bytes, CodecError>)
      modifies this
      ensures match TakeExact(old(rest), n)
              case Ok((b, after)) => r == Ok(b) && rest == after
              case Err(e) => r == Err(e)
    {
      if n > |rest| {
        return Err(UnexpectedEnd);
      }
      r, rest := Ok(rest[..n]), rest[n..];
    }

    method ReadPeer(valid: Bytes -> bool) returns (r: Result<PeerId, CodecError>)
      modifies this
      ensures match TakePeer(valid, old(rest))
              case Ok((id, after)) => r == Ok(id) && rest == after
              case Err(e) => r == Err(e)
    {
      var n := ReadNumber();
      if n.Err? {
        return Err(n.error);
      }
      r := ReadExact(n.value);
      if r.Ok? && !valid(r.value) {
        r := Err(InvalidInput);
      }
    }

    method ReadPeers(valid: Bytes -> bool) returns (r: Result<seq<PeerId>, CodecError>)
      modifies this
      ensures match TakeAllPeers(valid, old(rest))
              case Ok((peers, after)) => r == Ok(peers) && rest == after
              case Err(e) => r == Err(e)
    {
      hide TakePeer, TakeNumber;
      var n := ReadNumber();
      if n.Err? {
        return Err(n.error);
      }
      ghost var all := TakePeers(valid, rest, n.value);
      var peers: seq<PeerId> := [];
      PrependNone(all);
      for i := 0 to n.value
        invariant Prepend(peers, TakePeers(valid, rest, n.value - i)) == all
      {
        var id := ReadPeer(valid);
        if id.Err? {
          return Err(id.error);
        }
        PrependMore(peers, id.value, TakePeers(valid, rest, n.value - i - 1));
        peers := peers + [id.value];
      }
      assert peers + [] == peers;
      r := Ok(peers);
    }

    method ReadNumbers() returns (r: Result<seq<nat>, CodecError>)
      modifies this
      ensures match TakeAllNumbers(old(rest))
              case Ok((ns, after)) => r == Ok(ns) && rest == after
              case Err(e) => r == Err(e)
    {
      hide TakeNumber;
      var n := ReadNumber();
      if n.Err? {
        return Err(n.error);
      }
      ghost var all := TakeNumbers(rest, n.value);
      var ns: seq<nat> := [];
      PrependNone(all);
      for i := 0 to n.value
        invariant Prepend(ns, TakeNumbers(rest, n.value - i)) == all
      {
        var k := ReadNumber();
        if k.Err? {
          return Err(k.error);
        }
        PrependMore(ns, k.value, TakeNumbers(rest, n.value - i - 1));
        ns := ns + [k.value];
      }
      assert ns + [] == ns;
      r := Ok(ns);
    }
  }

  lemma PrependNone<T>(r: Parse<seq<T>>)
    ensures Prepend([], r) == r
  {
    if r.Ok? {
      assert [] + r.value.0 == r.value.0;
    }
  }

  lemma PrependMore<T>(xs: seq<T>, x: T, r: Parse<seq<T>>)
    ensures Prepend(xs + [x], r) == Prepend(xs, Prepend([x], r))
  {
    if r.Ok? {
      Regroup(xs, [x], r.value.0);
    }
  }

  /** Reads a peer set field by field. */
  method FromBytes(valid: Bytes -> bool, b: Bytes, local: PeerId) returns (r: Result<Peerset, CodecError>)
    ensures r == Decode(valid, b, local)
  {
    hide TakePeer, TakeAllPeers, TakeAllNumbers;
    var io := new ByteReader(b);
    var sender := io.ReadPeer(valid);
    if sender.Err? {
      return Err(sender.error);
    }
    var peers := io.ReadPeers(valid);
    if peers.Err? {
      return Err(peers.error);
    }
    var parties := io.ReadNumbers();
    if parties.Err? {
      return Err(parties.error);
    }
    r := Ok(Peerset(local, peers.value, parties.value));
  }

  // ---- Which bytes are written ----

  lemma {:induction false} SmallNumbers(ns: seq<nat>)
    requires forall i :: 0 <= i < |ns| ==> ns[i] < 0x80
    ensures |Numbers(ns)| == |ns| && forall i :: 0 <= i < |ns| ==> Numbers(ns)[i] as nat == ns[i]
  {
    if ns != [] {
      SmallNumbers(ns[1..]);
    }
  }

  /** Two peers, with ids of less than 128 bytes: each field with its length in front, in this order. */
  lemma PeersetBytes(local: PeerId, a: PeerId, b: PeerId, parties: seq<nat>)
    requires |local| < 0x80 && |a| < 0x80 && |b| < 0x80 && |parties| < 0x80
    requires forall i :: 0 <= i < |parties| ==> parties[i] < 0x80
    ensures Encode(Peerset(local, [a, b], parties)) ==
            [|local| as byte] + local + [2, |a| as byte] + a + [|b| as byte] + b + [|parties| as byte]
            + seq(|parties|, i requires 0 <= i < |parties| => parties[i] as byte)
  {
    hide Numbers;
    SmallNumbers(parties);
    assert Numbers(parties) == seq(|parties|, i requires 0 <= i < |parties| => parties[i] as byte);
    assert [a, b][1..] == [b] && [b][1..] == [];
    assert Blocks([b]) == [|b| as byte] + b;
    assert Blocks([a, b]) == [|a| as byte] + a + [|b| as byte] + b;
  }

  // ---- What is not a peer set ----

  lemma CutBlock(b: Bytes, k: nat)
    requires |b| < U64 && k < |Block(b)|
    ensures TakeBlock(Block(b)[..k]).Err?
  {
    hide Varint.Write, ReadU64;
    var head := Varint.Write(|b|);
    FrontOf(head, b, k);
    if k < |head| {
      CutNumber(|b|, k);
    } else {
      RoundTripU64(|b|, b[..k - |head|]);
    }
  }

  lemma CutPeer(valid: Bytes -> bool, id: PeerId, k: nat)
    requires |id| < U64 && k < |Block(id)|
    ensures TakePeer(valid, Block(id)[..k]).Err?
  {
    hide Block, TakeBlock;
    CutBlock(id, k);
  }

  lemma {:induction false} CutPeers(valid: Bytes -> bool, peers: seq<PeerId>, k: nat)
    requires forall i :: 0 <= i < |peers| ==> valid(peers[i]) && |peers[i]| < U64
    requires k < |Blocks(peers)|
    ensures TakePeers(valid, Blocks(peers)[..k], |peers|).Err?
  {
    hide Block, TakePeer;
    var b, rest := Block(peers[0]), Blocks(peers[1..]);
    FrontOf(b, rest, k);
    if k < |b| {
      CutPeer(valid, peers[0], k);
    } else {
      PeerTrip(valid, peers[0], rest[..k - |b|]);
      CutPeers(valid, peers[1..], k - |b|);
    }
  }

  lemma {:induction false} CutNumbers(ns: seq<nat>, k: nat)
    requires forall i :: 0 <= i < |ns| ==> ns[i] < U64
    requires k < |Numbers(ns)|
    ensures TakeNumbers(Numbers(ns)[..k], |ns|).Err?
  {
    hide Varint.Write, ReadU64;
    var b, rest := Varint.Write(ns[0]), Numbers(ns[1..]);
    FrontOf(b, rest, k);
    if k < |b| {
      CutNumber(ns[0], k);
    } else {
      RoundTripU64(ns[0], rest[..k - |b|]);
      CutNumbers(ns[1..], k - |b|);
    }
  }

  lemma CutPeersPart(valid: Bytes -> bool, peers: seq<PeerId>, k: nat)
    requires forall i :: 0 <= i < |peers| ==> valid(peers[i]) && |peers[i]| < U64
    requires |peers| < U64 && k < |Varint.Write(|peers|) + Blocks(peers)|
    ensures TakeAllPeers(valid, (Varint.Write(|peers|) + Blocks(peers))[..k]).Err?
  {
    hide Varint.Write, ReadU64, Blocks, TakePeers;
    var head, rest := Varint.Write(|peers|), Blocks(peers);
    FrontOf(head, rest, k);
    if k < |head| {
      CutNumber(|peers|, k);
    } else {
      RoundTripU64(|peers|, rest[..k - |head|]);
      CutPeers(valid, peers, k - |head|);
    }
  }

  lemma CutNumbersPart(ns: seq<nat>, k: nat)
    requires forall i :: 0 <= i < |ns| ==> ns[i] < U64
    requires |ns| < U64 && k < |Varint.Write(|ns|) + Numbers(ns)|
    ensures TakeAllNumbers((Varint.Write(|ns|) + Numbers(ns))[..k]).Err?
  {
    hide Varint.Write, ReadU64, Numbers, TakeNumbers;
    var head, rest := Varint.Write(|ns|), Numbers(ns);
    FrontOf(head, rest, k);
    if k < |head| {
      CutNumber(|ns|, k);
    } else {
      RoundTripU64(|ns|, rest[..k - |head|]);
      CutNumbers(ns, k - |head|);
    }
  }

  /** A peer set of which the end is missing is not read as another one. */
  lemma CutPeerset(valid: Bytes -> bool, p: Peerset, local: PeerId, k: nat)
    requires Encodable(valid, p) && k < |Encode(p)|
    ensures Decode(valid, Encode(p)[..k], local).Err?
  {
    hide Block, TakePeer, TakeAllPeers, TakeAllNumbers, Varint.Write, Blocks, Numbers;
    var own, peers := Block(p.local), Varint.Write(|p.peers|) + Blocks(p.peers);
    var parties := Varint.Write(|p.parties|) + Numbers(p.parties);
    Regroup(Varint.Write(|p.peers|), Blocks(p.peers), parties);
    assert Encode(p) == own + (peers + parties);
    FrontOf(own, peers + parties, k);
    if k < |own| {
      CutPeer(valid, p.local, k);
    } else {
      var j := k - |own|;
      PeerTrip(valid, p.local, (peers + parties)[..j]);
      FrontOf(peers, parties, j);
      if j < |peers| {
        CutPeersPart(valid, p.peers, j);
      } else {
        var rest := parties[..j - |peers|];
        PeersPart(valid, p.peers, rest);
        Regroup(Varint.Write(|p.peers|), Blocks(p.peers), rest);
        CutNumbersPart(p.parties, j - |peers|);
      }
    }
  }

  lemma TakenPeer(valid: Bytes -> bool, b: Bytes)
    requires TakePeer(valid, b).Ok?
    ensures var id := TakePeer(valid, b).value.0; valid(id) && |id| < U64
  {
    hide ReadU64;
  }

  ghost predicate AllValid(valid: Bytes -> bool, peers: seq<PeerId>) {
    forall i :: 0 <= i < |peers| ==> valid(peers[i]) && |peers[i]| < U64
  }

  lemma ValidMore(valid: Bytes -> bool, id: PeerId, peers: seq<PeerId>)
    requires valid(id) && |id| < U64 && AllValid(valid, peers)
    ensures AllValid(valid, [id] + peers)
  {
  }

  lemma NoneTaken(valid: Bytes -> bool, b: Bytes)
    ensures TakePeers(valid, b, 0) == Ok(([], b)) && AllValid(valid, [])
  {
  }

  lemma FirstTaken(valid: Bytes -> bool, b: Bytes, n: nat)
    requires n > 0 && TakePeers(valid, b, n).Ok?
    ensures TakePeer(valid, b).Ok? && TakePeers(valid, TakePeer(valid, b).value.1, n - 1).Ok?
    ensures var (id, rest) := TakePeer(valid, b).value;
            TakePeers(valid, b, n).value.0 == [id] + TakePeers(valid, rest, n - 1).value.0
  {
    hide TakePeer;
  }

  lemma {:induction false} TakenPeers(valid: Bytes -> bool, b: Bytes, n: nat)
    requires TakePeers(valid, b, n).Ok?
    ensures var peers := TakePeers(valid, b, n).value.0; |peers| == n && AllValid(valid, peers)
    decreases n
  {
    hide TakePeer, TakePeers, AllValid;
    if n == 0 {
      NoneTaken(valid, b);
    } else {
      FirstTaken(valid, b, n);
      TakenPeer(valid, b);
      var (id, rest) := TakePeer(valid, b).value;
      TakenPeers(valid, rest, n - 1);
      ValidMore(valid, id, TakePeers(valid, rest, n - 1).value.0);
    }
  }

  lemma {:induction false} TakenNumbers(b: Bytes, n: nat)
    requires TakeNumbers(b, n).Ok?
    ensures var ns := TakeNumbers(b, n).value.0; |ns| == n && forall i :: 0 <= i < |ns| ==> ns[i] < U64
    decreases n
  {
    if n > 0 {
      TakenNumbers(TakeNumber(b).value.1, n - 1);
    }
  }

  /** Whatever is decoded has valid peer ids only, and its own encoding decodes to it again. */
  lemma DecodedTwice(valid: Bytes -> bool, b: Bytes, local: PeerId)
    requires valid(local) && |local| < U64 && Decode(valid, b, local).Ok?
    ensures var p := Decode(valid, b, local).value;
            && p.local == local && (forall i :: 0 <= i < |p.peers| ==> valid(p.peers[i]))
            && Decode(valid, Encode(p), local) == Ok(p)
  {
    hide ReadU64, Encode;
    DecodedEncodable(valid, b, local);
    PeersetRoundTrip(valid, Decode(valid, b, local).value, local);
  }

  lemma DecodedEncodable(valid: Bytes -> bool, b: Bytes, local: PeerId)
    requires valid(local) && |local| < U64 && Decode(valid, b, local).Ok?
    ensures var p := Decode(valid, b, local).value; p.local == local && Encodable(valid, p)
  {
    hide ReadU64, TakePeer, TakePeers, TakeNumbers;
    var rest := TakePeer(valid, b).value.1;
    var (n, afterCount) := TakeNumber(rest).value;
    TakenPeers(valid, afterCount, n);
    var (k, afterParties) := TakeNumber(TakeAllPeers(valid, rest).value.1).value;
    TakenNumbers(afterParties, k);
  }
}
