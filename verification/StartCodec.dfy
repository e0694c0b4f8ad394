/** The start message: a peer set and the body of the request, each with its length in front. */
module StartCodec {
  import opened Basics
  import opened Varint
  import opened Peers
  import opened PeersetCodec

  datatype StartMsg = StartMsg(peerset: Peerset, body: Bytes)

  function EncodeStart(m: StartMsg): Bytes {
    Block(Encode(m.peerset)) + Block(m.body)
  }

  /** Both blocks are taken before the first is looked into. */
  function DecodeStart(valid: Bytes -> bool, b: Bytes, local: PeerId): Result<StartMsg, CodecError> {
    match TakeBlock(b)
    case Err(e) => Err(e)
    case Ok((inner, rest)) =>
      match TakeBlock(rest)
      case Err(e) => Err(e)
      case Ok((body, _)) =>
        match Decode(valid, inner, local)
        case Err(e) => Err(e)
        case Ok(peerset) => Ok(StartMsg(peerset, body))
  }

  /** Every receiver reads the proposer's peers, in the proposer's order, and the body. */
  lemma StartRoundTrip(valid: Bytes -> bool, m: StartMsg, local: PeerId)
    requires Encodable(valid, m.peerset) && |Encode(m.peerset)| < U64 && |m.body| < U64
    ensures DecodeStart(valid, EncodeStart(m), local) == Ok(StartMsg(m.peerset.(local := local), m.body))
  {
    hide Block, TakeBlock, Encode, Decode, Encodable;
    BlockTrip(Encode(m.peerset), Block(m.body));
    BlockTrip(m.body, []);
    assert Block(m.body) + [] == Block(m.body);
    PeersetRoundTrip(valid, m.peerset, local);
  }

  /**
    What is sent for a message, with writers of some capacity: a tail of two blocks, the first around
    a tail of the peer set; each of the two tails is the whole if and only if the whole fits.
  */
  ghost predicate SentFor(m: StartMsg, capacity: nat, b: Bytes) {
    exists inner :: SentAround(m, capacity, inner, b)
  }

  ghost predicate SentAround(m: StartMsg, capacity: nat, inner: Bytes, b: Bytes) {
    var both := Block(inner) + Block(m.body);
    && |inner| <= capacity && IsTail(inner, Encode(m.peerset))
    && (inner == Encode(m.peerset) <==> |Encode(m.peerset)| <= capacity)
    && |b| <= capacity && IsTail(b, both) && (b == both <==> |both| <= capacity)
  }

  /** So the whole message is sent if and only if it fits. */
  lemma SentWholeIff(m: StartMsg, capacity: nat, b: Bytes)
    requires SentFor(m, capacity, b)
    ensures b == EncodeStart(m) <==> |EncodeStart(m)| <= capacity
  {
    hide Encode, Varint.Write;
    var inner :| SentAround(m, capacity, inner, b);
    assert |Encode(m.peerset)| <= |EncodeStart(m)|;
  }

  method StartToBytes(m: StartMsg, capacity: nat) returns (b: Bytes)
    ensures SentFor(m, capacity, b)
    ensures b == EncodeStart(m) <==> |EncodeStart(m)| <= capacity
  {
    hide Encode, Varint.Write;
    var inner := ToBytes(m.peerset, capacity);
    var io := new BufWriter(capacity);
    WriteBlock(io, inner);
    WriteBlock(io, m.body);
    assert io.Written() == Block(inner) + Block(m.body);
    io.BufferIff();
    b := io.buffer;
    assert SentAround(m, capacity, inner, b);
    SentWholeIff(m, capacity, b);
  }

  method StartFromBytes(valid: Bytes -> bool, b: Bytes, local: PeerId) returns (r: Result<StartMsg, CodecError>)
    ensures r == DecodeStart(valid, b, local)
  {
    hide Decode, ReadU64;
    var io := new ByteReader(b);
    var n := io.ReadNumber();
    if n.Err? {
      return Err(n.error);
    }
    var inner := io.ReadExact(n.value);
    if inner.Err? {
      return Err(inner.error);
    }
    n := io.ReadNumber();
    if n.Err? {
      return Err(n.error);
    }
    var body := io.ReadExact(n.value);
    if body.Err? {
      return Err(body.error);
    }
    var peerset := FromBytes(valid, inner.value, local);
    if peerset.Err? {
      return Err(peerset.error);
    }
    r := Ok(StartMsg(peerset.value, body.value));
  }

  /** Two parts of less than 128 bytes: the peer set first, each with its length in front. */
  lemma StartBytes(m: StartMsg)
    requires |Encode(m.peerset)| < 0x80 && |m.body| < 0x80
    ensures EncodeStart(m) ==
            [|Encode(m.peerset)| as byte] + Encode(m.peerset) + [|m.body| as byte] + m.body
  {
    hide Encode;
    var inner := Encode(m.peerset);
    assert Block(inner) == [|inner| as byte] + inner;
    assert Block(m.body) == [|m.body| as byte] + m.body;
  }

  /** A start message of which the end is missing is not read as another one. */
  lemma CutStart(valid: Bytes -> bool, m: StartMsg, local: PeerId, k: nat)
    requires Encodable(valid, m.peerset) && |Encode(m.peerset)| < U64 && |m.body| < U64 && k < |EncodeStart(m)|
    ensures DecodeStart(valid, EncodeStart(m)[..k], local).Err?
  {
    hide Block, TakeBlock, Encode, Decode, Encodable;
    var first, second := Block(Encode(m.peerset)), Block(m.body);
    FrontOf(first, second, k);
    if k < |first| {
      CutBlock(Encode(m.peerset), k);
    } else {
      BlockTrip(Encode(m.peerset), second[..k - |first|]);
      CutBlock(m.body, k - |first|);
    }
  }
}
