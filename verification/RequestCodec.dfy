/** Requests and responses on the wire. */
module RequestCodec {
  import opened Basics
  import opened Varint
  import opened Messages

  const SESSION_BYTES: nat := 16

  datatype WireMessage = WireMessage(context: MessageContext, payload: Bytes, isBroadcast: bool)

  /** A bad number or an oversized payload; an input that ends early; or a message type that stops the reader. */
  datatype WireError = InvalidInput | UnexpectedEof | UnknownType

  type Parse<T> = Result<(T, Bytes), WireError>

  // ---- The formats ----

  function TypeTag(t: MessageType): nat {
    if t == Coordination then 0 else 1
  }

  function EncodeRequest(m: WireMessage): Bytes {
    Write(TypeTag(m.context.messageType)) + (Write(if m.isBroadcast then 1 else 0) + (Write(m.context.protocolId)
      + (m.context.sessionId + (Write(m.context.messageId) + (Write(|m.payload|) + m.payload)))))
  }

  function TakeType(b: Bytes): Parse<MessageType> {
    match ReadU8(b)
    case Err(_) => Err(InvalidInput)
    case Ok((tag, rest)) =>
      if tag == 0 then Ok((Coordination, rest)) else if tag == 1 then Ok((Computation, rest)) else Err(UnknownType)
  }

  function TakeBytes(b: Bytes, n: nat): Parse<Bytes> {
    if n <= |b| then Ok((b[..n], b[n..])) else Err(WireError.UnexpectedEof)
  }

  function TakePayload(b: Bytes, max: nat): Parse<Bytes> {
    match ReadU64(b)
    case Err(_) => Err(InvalidInput)
    case Ok((n, rest)) => if n > max then Err(InvalidInput) else TakeBytes(rest, n)
  }

  /** What follows the message type: broadcast mark, protocol, session and message ids. */
  function TakeContext(messageType: MessageType, b: Bytes): Parse<(bool, MessageContext)> {
    match ReadU8(b)
    case Err(_) => Err(InvalidInput)
    case Ok((mark, b1)) =>
      match ReadU64(b1)
      case Err(_) => Err(InvalidInput)
      case Ok((protocolId, b2)) =>
        match TakeBytes(b2, SESSION_BYTES)
        case Err(e) => Err(e)
        case Ok((sessionId, b3)) =>
          match ReadU64(b3)
          case Err(_) => Err(InvalidInput)
          case Ok((messageId, b4)) =>
            Ok(((mark != 0, MessageContext(messageType, protocolId, sessionId, messageId)), b4))
  }

  function DecodeRequest(b: Bytes, max: nat): Parse<WireMessage> {
    match TakeType(b)
    case Err(e) => Err(e)
    case Ok((messageType, b1)) =>
      match TakeContext(messageType, b1)
      case Err(e) => Err(e)
      case Ok(((isBroadcast, context), b2)) =>
        match TakePayload(b2, max)
        case Err(e) => Err(e)
        case Ok((payload, b3)) => Ok((WireMessage(context, payload, isBroadcast), b3))
  }

  /** The outcome a peer sends back; a refusal has no content. */
  type Response = Result<Bytes, Refusal>

  datatype Refusal = Refusal

  function EncodeResponse(r: Response): Bytes {
    match r
    case Ok(b) => Write(|b|) + b
    case Err(_) => []
  }

  function DecodeResponse(b: Bytes, max: nat): Parse<Response> {
    match ReadU64(b)
    case Err(e) => if e == VarintError.UnexpectedEof then Ok((Err(Refusal), [])) else Err(InvalidInput)
    case Ok((n, rest)) =>
      if n > max then Err(InvalidInput)
      else
        match TakeBytes(rest, n)
        case Err(e) => Err(e)
        case Ok((payload, after)) => Ok((Ok(payload), after))
  }

  // ---- Round trips ----

  /** Numbers that fit their types. */
  predicate InRange(m: WireMessage) {
    && m.context.protocolId < U64 && m.context.messageId < U64 && |m.payload| < U64
    && |m.context.sessionId| == SESSION_BYTES
  }

  lemma PayloadIff(payload: Bytes, rest: Bytes, max: nat)
    requires |payload| < U64
    ensures TakePayload(Write(|payload|) + payload + rest, max)
         == if |payload| <= max then Ok((payload, rest)) else Err(InvalidInput)
  {
    hide ReadU64, Write;
    RoundTripU64(|payload|, payload + rest);
    Regroup(Write(|payload|), payload, rest);
    assert (payload + rest)[..|payload|] == payload && (payload + rest)[|payload|..] == rest;
  }

  lemma ContextTrip(mark: bool, context: MessageContext, rest: Bytes)
    requires context.protocolId < U64 && context.messageId < U64 && |context.sessionId| == SESSION_BYTES
    ensures TakeContext(context.messageType, Write(if mark then 1 else 0)
              + (Write(context.protocolId) + (context.sessionId + (Write(context.messageId) + rest))))
         == Ok(((mark, context), rest))
  {
    hide ReadU64, ReadU8, Write;
    var b3 := Write(context.messageId) + rest;
    var b2 := context.sessionId + b3;
    var b1 := Write(context.protocolId) + b2;
    RoundTripU8(if mark then 1 else 0, b1);
    RoundTripU64(context.protocolId, b2);
    assert b2[..SESSION_BYTES] == context.sessionId && b2[SESSION_BYTES..] == b3;
    RoundTripU64(context.messageId, rest);
  }

  lemma TypeTrip(t: MessageType, rest: Bytes)
    ensures TakeType(Write(TypeTag(t)) + rest) == Ok((t, rest))
  {
    hide ReadU8, Write;
    RoundTripU8(TypeTag(t), rest);
  }

  lemma Layout(a: Bytes, b: Bytes, c: Bytes, d: Bytes, e: Bytes, f: Bytes, rest: Bytes)
    ensures (a + (b + (c + (d + (e + f))))) + rest == a + (b + (c + (d + (e + (f + rest)))))
  {
    Regroup(a, b + (c + (d + (e + f))), rest);
    Regroup(b, c + (d + (e + f)), rest);
    Regroup(c, d + (e + f), rest);
    Regroup(d, e + f, rest);
    Regroup(e, f, rest);
  }

  /**
    A request followed by anything is read back as itself, consuming exactly the bytes written, if
    and only if its payload is within the reader's limit; otherwise it is refused.
  */
  lemma RequestRoundTrip(m: WireMessage, rest: Bytes, max: nat)
    requires InRange(m)
    ensures DecodeRequest(EncodeRequest(m) + rest, max)
         == if |m.payload| <= max then Ok((m, rest)) else Err(InvalidInput)
  {
    hide Write, TakeType, TakeContext, TakePayload;
    var c := m.context;
    var payload := Write(|m.payload|) + m.payload;
    Layout(Write(TypeTag(c.messageType)), Write(if m.isBroadcast then 1 else 0), Write(c.protocolId),
           c.sessionId, Write(c.messageId), payload, rest);
    TypeTrip(c.messageType, Write(if m.isBroadcast then 1 else 0)
             + (Write(c.protocolId) + (c.sessionId + (Write(c.messageId) + (payload + rest)))));
    ContextTrip(m.isBroadcast, c, payload + rest);
    PayloadIff(m.payload, rest, max);
  }

  /** A response is read back as itself if and only if it is a refusal or within the limit. */
  lemma ResponseRoundTrip(r: Response, max: nat)
    requires r.Ok? ==> |r.value| < U64
    ensures DecodeResponse(EncodeResponse(r), max) == Ok((r, [])) <==> (r.Ok? ==> |r.value| <= max)
    ensures r.Ok? && |r.value| > max ==> DecodeResponse(EncodeResponse(r), max) == Err(InvalidInput)
  {
    hide Write, ReadU64;
    match r
    case Err(e) =>
      assert e == Refusal;
      NothingToRead();
    case Ok(b) =>
      RoundTripU64(|b|, b);
      assert b[..|b|] == b && b[|b|..] == [];
  }

  lemma NothingToRead()
    ensures ReadU64([]) == Err(VarintError.UnexpectedEof)
  {
  }

  /** No two responses look alike; in particular a refusal is not an empty success. */
  lemma ResponsesDiffer(a: Response, b: Response)
    requires a.Ok? ==> |a.value| < U64
    requires b.Ok? ==> |b.value| < U64
    ensures EncodeResponse(a) == EncodeResponse(b) <==> a == b
  {
    hide EncodeResponse, DecodeResponse;
    ResponseRoundTrip(a, U64);
    ResponseRoundTrip(b, U64);
  }

  // ---- The stream ----

  /** A substream: bytes written to it, or still to be read from it. */
  class Substream {
    var bytes: Bytes
    var closed: bool

    constructor (b: Bytes)
      ensures bytes == b && !closed
    {
      bytes, closed := b, false;
    }

    method WriteAll(b: Bytes)
      requires !closed
      modifies this`bytes
      ensures bytes == old(bytes) + b
    {
      bytes := bytes + b;
    }

    method ReadNumber(wide: bool) returns (r: Result<nat, VarintError>)
      modifies this`bytes
      ensures match if wide then ReadU64(old(bytes)) else ReadU8(old(bytes))
              case Ok((n, rest)) => r == Ok(n) && bytes == rest
              case Err(e) => r == Err(e)
    {
      match if wide then ReadU64(bytes) else ReadU8(bytes)
      case Ok((n, rest)) =>
        bytes := rest;
        r := Ok(n);
      case Err(e) =>
        r := Err(e);
    }

    method ReadExact(n: nat) returns (r: Result<Bytes, WireError>)
      modifies this`bytes
      ensures match TakeBytes(old(bytes), n)
              case Ok((b, rest)) => r == Ok(b) && bytes == rest
              case Err(e) => r == Err(e)
    {
      if n > |bytes| {
        return Err(WireError.UnexpectedEof);
      }
      r, bytes := Ok(bytes[..n]), bytes[n..];
    }
  }

  /** Writes a request field by field, and closes the substream. */
  method WriteRequest(io: Substream, m: WireMessage)
    requires !io.closed
    modifies io
    ensures io.closed && io.bytes == old(io.bytes) + EncodeRequest(m)
  {
    hide Write;
    ghost var start := io.bytes;
    var tag, mark := Write(TypeTag(m.context.messageType)), Write(if m.isBroadcast then 1 else 0);
    io.WriteAll(tag);
    io.WriteAll(mark);
    io.WriteAll(Write(m.context.protocolId));
    io.WriteAll(m.context.sessionId);
    io.WriteAll(Write(m.context.messageId));
    io.WriteAll(Write(|m.payload|));
    io.WriteAll(m.payload);
    InOrder(start, tag, mark, Write(m.context.protocolId), m.context.sessionId, Write(m.context.messageId),
            Write(|m.payload|), m.payload);
    io.closed := true;
  }

  lemma InOrder(s: Bytes, a: Bytes, b: Bytes, c: Bytes, d: Bytes, e: Bytes, f: Bytes, g: Bytes)
    ensures s + a + b + c + d + e + f + g == s + (a + (b + (c + (d + (e + (f + g))))))
  {
    Regroup(s + a + b + c + d + e, f, g);
    Regroup(s + a + b + c + d, e, f + g);
    Regroup(s + a + b + c, d, e + (f + g));
    Regroup(s + a + b, c, d + (e + (f + g)));
    Regroup(s + a, b, c + (d + (e + (f + g))));
    Regroup(s, a, b + (c + (d + (e + (f + g)))));
  }

  method ReadContext(io: Substream, messageType: MessageType) returns (r: Result<(bool, MessageContext), WireError>)
    modifies io`bytes
    ensures match TakeContext(messageType, old(io.bytes))
            case Ok((c, rest)) => r == Ok(c) && io.bytes == rest
            case Err(e) => r == Err(e)
  {
    hide ReadU64, ReadU8;
    var mark := io.ReadNumber(false);
    if mark.Err? {
      return Err(InvalidInput);
    }
    var protocolId := io.ReadNumber(true);
    if protocolId.Err? {
      return Err(InvalidInput);
    }
    var sessionId := io.ReadExact(SESSION_BYTES);
    if sessionId.Err? {
      return Err(sessionId.error);
    }
    var messageId := io.ReadNumber(true);
    if messageId.Err? {
      return Err(InvalidInput);
    }
    r := Ok((mark.value != 0, MessageContext(messageType, protocolId.value, sessionId.value, messageId.value)));
  }

  /** Reads a request field by field. */
  method ReadRequest(io: Substream, max: nat) returns (r: Result<WireMessage, WireError>)
    modifies io`bytes
    ensures match DecodeRequest(old(io.bytes), max)
            case Ok((m, rest)) => r == Ok(m) && io.bytes == rest
            case Err(e) => r == Err(e)
  {
    hide ReadU64, ReadU8, TakeContext;
    var tag := io.ReadNumber(false);
    if tag.Err? {
      return Err(InvalidInput);
    }
    if tag.value > 1 {
      return Err(UnknownType);
    }
    var context := ReadContext(io, if tag.value == 0 then Coordination else Computation);
    if context.Err? {
      return Err(context.error);
    }
    var length := io.ReadNumber(true);
    if length.Err? || length.value > max {
      return Err(InvalidInput);
    }
    var payload := io.ReadExact(length.value);
    if payload.Err? {
      return Err(payload.error);
    }
    r := Ok(WireMessage(context.value.1, payload.value, context.value.0));
  }

  method WriteResponse(io: Substream, r: Response)
    requires !io.closed
    modifies io
    ensures io.closed && io.bytes == old(io.bytes) + EncodeResponse(r)
  {
    if r.Ok? {
      io.WriteAll(Write(|r.value|));
      io.WriteAll(r.value);
      Regroup(old(io.bytes), Write(|r.value|), r.value);
    }
    io.closed := true;
  }

  /** An input that ends before the length is a refusal. */
  method ReadResponse(io: Substream, max: nat) returns (r: Result<Response, WireError>)
    modifies io`bytes
    ensures match DecodeResponse(old(io.bytes), max)
            case Ok((v, _)) => r == Ok(v)
            case Err(e) => r == Err(e)
  {
    hide ReadU64;
    var length := io.ReadNumber(true);
    if length.Err? {
      return if length.error == VarintError.UnexpectedEof then Ok(Err(Refusal)) else Err(InvalidInput);
    }
    if length.value > max {
      return Err(InvalidInput);
    }
    var payload := io.ReadExact(length.value);
    r := if payload.Ok? then Ok(Ok(payload.value)) else Err(payload.error);
  }

  // ---- Which bytes are written ----

  /**
    With ids and payload below 128: type (0 for coordination, 1 for computation), broadcast mark, protocol
    id, the session's bytes as they are, message id, and the payload with its length in front.
  */
  lemma RequestBytes(m: WireMessage)
    requires m.context.protocolId < 0x80 && m.context.messageId < 0x80 && |m.payload| < 0x80
    ensures EncodeRequest(m) ==
            [match m.context.messageType case Coordination => 0 case Computation => 1,
             if m.isBroadcast then 1 else 0, m.context.protocolId as byte]
            + m.context.sessionId + [m.context.messageId as byte, |m.payload| as byte] + m.payload
  {
    assert Write(m.context.protocolId) == [m.context.protocolId as byte];
    assert Write(m.context.messageId) == [m.context.messageId as byte];
    assert Write(|m.payload|) == [|m.payload| as byte];
    assert Write(0) == [0] && Write(1) == [1];
  }

  lemma SmallNumber(x: byte, rest: Bytes)
    requires x < 0x80
    ensures ReadU64([x] + rest) == Ok((x as nat, rest)) && ReadU8([x] + rest) == Ok((x as nat, rest))
  {
    hide Varint.Value;
    RoundTripU64(x as nat, rest);
    RoundTripU8(x as nat, rest);
    assert Write(x as nat) == [x];
  }

  /**
    Any frame of small numbers, whoever wrote it: a type above one stops the reader, any mark but zero
    means a broadcast, and a payload over the limit is refused.
  */
  lemma FrameRead(kind: byte, mark: byte, protocol: byte, session: Bytes, message: byte, payload: Bytes, rest: Bytes,
                  max: nat)
    requires kind < 0x80 && mark < 0x80 && protocol < 0x80 && message < 0x80
    requires |session| == 16 && |payload| < 0x80
    ensures var rest1 := [message] + ([|payload| as byte] + (payload + rest));
            DecodeRequest([kind] + ([mark] + ([protocol] + (session + rest1))), max) ==
            if kind > 1 then Err(UnknownType)
            else if |payload| > max then Err(InvalidInput)
            else
              var context := MessageContext(if kind == 0 then Coordination else Computation, protocol as nat, session,
                                            message as nat);
              Ok((WireMessage(context, payload, mark != 0), rest))
  {
    hide ReadU64, ReadU8, Write;
    var b5 := payload + rest;
    var b4 := [|payload| as byte] + b5;
    var b3 := [message] + b4;
    var b2 := session + b3;
    var b1 := [protocol] + b2;
    SmallNumber(kind, [mark] + b1);
    SmallNumber(mark, b1);
    SmallNumber(protocol, b2);
    SmallNumber(message, b4);
    SmallNumber(|payload| as byte, b5);
    assert b2[..16] == session && b2[16..] == b3;
    assert b5[..|payload|] == payload && b5[|payload|..] == rest;
  }

  // ---- Frames that end early ----

  lemma CutPayload(payload: Bytes, max: nat, k: nat)
    requires |payload| < U64 && k < |Write(|payload|) + payload|
    ensures TakePayload((Write(|payload|) + payload)[..k], max).Err?
  {
    hide ReadU64, Write;
    var head := Write(|payload|);
    FrontOf(head, payload, k);
    if k < |head| {
      CutNumber(|payload|, k);
    } else {
      RoundTripU64(|payload|, payload[..k - |head|]);
    }
  }

  /** The fields after the broadcast mark. */
  function Fields(c: MessageContext): Bytes {
    Write(c.protocolId) + (c.sessionId + Write(c.messageId))
  }

  lemma CutFields(mark: bool, c: MessageContext, k: nat)
    requires c.protocolId < U64 && c.messageId < U64 && |c.sessionId| == SESSION_BYTES && k < |Fields(c)|
    ensures TakeContext(c.messageType, Write(if mark then 1 else 0) + Fields(c)[..k]).Err?
  {
    hide ReadU64, ReadU8, Write;
    var a, b, d := Write(c.protocolId), c.sessionId, Write(c.messageId);
    RoundTripU8(if mark then 1 else 0, Fields(c)[..k]);
    FrontOf(a, b + d, k);
    if k < |a| {
      CutNumber(c.protocolId, k);
    } else {
      var j := k - |a|;
      RoundTripU64(c.protocolId, (b + d)[..j]);
      FrontOf(b, d, j);
      if j >= |b| {
        var rest := d[..j - |b|];
        assert (b + rest)[..SESSION_BYTES] == b && (b + rest)[SESSION_BYTES..] == rest;
        CutNumber(c.messageId, j - |b|);
      }
    }
  }

  /** A request of which the end is missing is not read as another one. */
  lemma CutRequest(m: WireMessage, max: nat, k: nat)
    requires InRange(m) && k < |EncodeRequest(m)|
    ensures DecodeRequest(EncodeRequest(m)[..k], max).Err?
  {
    hide Write, TakePayload, TakeContext, TakeType, Fields;
    var c := m.context;
    var kind, mark := Write(TypeTag(c.messageType)), Write(if m.isBroadcast then 1 else 0);
    var payload := Write(|m.payload|) + m.payload;
    InFields(m);
    SingleBytes(m);
    FrontOf(kind, mark + (Fields(c) + payload), k);
    if k == 0 {
      NoType();
    } else {
      TypeTrip(c.messageType, (mark + (Fields(c) + payload))[..k - 1]);
      CutAfterType(m, max, k - 1);
    }
  }

  lemma InFields(m: WireMessage)
    ensures EncodeRequest(m) == Write(TypeTag(m.context.messageType)) + (Write(if m.isBroadcast then 1 else 0)
      + (Fields(m.context) + (Write(|m.payload|) + m.payload)))
  {
    hide Write;
    var c := m.context;
    var a, b, d, payload := Write(c.protocolId), c.sessionId, Write(c.messageId), Write(|m.payload|) + m.payload;
    Regroup(a, b + d, payload);
    Regroup(b, d, payload);
  }

  lemma SingleBytes(m: WireMessage)
    ensures |Write(TypeTag(m.context.messageType))| == 1 && |Write(if m.isBroadcast then 1 else 0)| == 1
  {
  }

  lemma NoType()
    ensures TakeType([]).Err?
  {
  }

  lemma NoMark(messageType: MessageType)
    ensures TakeContext(messageType, []).Err?
  {
  }

  lemma CutAfterType(m: WireMessage, max: nat, k: nat)
    requires InRange(m)
    requires k < |Write(if m.isBroadcast then 1 else 0) + (Fields(m.context) + (Write(|m.payload|) + m.payload))|
    ensures var b := Write(if m.isBroadcast then 1 else 0) + (Fields(m.context) + (Write(|m.payload|) + m.payload));
            match TakeContext(m.context.messageType, b[..k])
            case Err(_) => true
            case Ok((_, b2)) => TakePayload(b2, max).Err?
  {
    hide Write, TakePayload, TakeContext, Fields;
    var c, mark, payload := m.context, Write(if m.isBroadcast then 1 else 0), Write(|m.payload|) + m.payload;
    SingleBytes(m);
    FrontOf(mark, Fields(c) + payload, k);
    if k == 0 {
      NoMark(c.messageType);
    } else {
      FrontOf(Fields(c), payload, k - 1);
      if k - 1 < |Fields(c)| {
        CutFields(m.isBroadcast, c, k - 1);
      } else {
        var rest := payload[..k - 1 - |Fields(c)|];
        FieldsTrip(m.isBroadcast, c, rest);
        CutPayload(m.payload, max, k - 1 - |Fields(c)|);
      }
    }
  }

  lemma FieldsTrip(mark: bool, c: MessageContext, rest: Bytes)
    requires c.protocolId < U64 && c.messageId < U64 && |c.sessionId| == SESSION_BYTES
    ensures TakeContext(c.messageType, Write(if mark then 1 else 0) + (Fields(c) + rest)) == Ok(((mark, c), rest))
  {
    hide TakeContext, Write;
    ContextTrip(mark, c, rest);
    Regroup(Write(c.protocolId), c.sessionId + Write(c.messageId), rest);
    Regroup(c.sessionId, Write(c.messageId), rest);
  }

  /** A response that ends inside its length is read as a refusal; one that ends later is an error. */
  lemma CutResponse(b: Bytes, max: nat, k: nat)
    requires |b| < U64 && |b| <= max && k < |EncodeResponse(Ok(b))|
    ensures DecodeResponse(EncodeResponse(Ok(b))[..k], max) ==
            if k < |Write(|b|)| then Ok((Err(Refusal), [])) else Err(WireError.UnexpectedEof)
  {
    hide Write, ReadU64;
    var head := Write(|b|);
    FrontOf(head, b, k);
    if k < |head| {
      CutNumber(|b|, k);
    } else {
      RoundTripU64(|b|, b[..k - |head|]);
    }
  }
}
