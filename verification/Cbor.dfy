/**
  The payloads of protocol broadcasts.

  Every broadcast body is one CBOR data item: the `dag-cbor` encoding of a byte
  vector, which is an array of small unsigned integers.  The echo hash covers the
  bare concatenation of n such bodies, so what the hash can tell apart is decided
  by whether the bodies are uniquely decodable from their concatenation.
  This module proves that they are, following section 3 of RFC 8949.
*/
module Cbor {
  import opened Basics

  /** A data item head: major type, argument, and the number of bytes it occupies. */
  datatype Head = Head(major: nat, arg: nat, size: nat)
  {
    /** Bytes up to the end of the head's own content: strings carry their payload directly. */
    function Extent(): nat {
      size + if major == 2 || major == 3 then arg else 0
    }

    /** Data items nested under the head: arrays, maps and tags have them. */
    function Children(): nat {
      if major == 4 then arg else if major == 5 then 2 * arg else if major == 6 then 1 else 0
    }
  }

  /** Big-endian value of a byte string. */
  function BigEndian(s: Bytes): nat {
    if s == [] then 0 else BigEndian(s[..|s| - 1]) * 0x100 + s[|s| - 1] as nat
  }

  /** Bytes that follow the initial byte, by its additional information. */
  function ArgWidth(info: nat): Option<nat> {
    if info < 24 then Some(0)
    else if info == 24 then Some(1)
    else if info == 25 then Some(2)
    else if info == 26 then Some(4)
    else if info == 27 then Some(8)
    else None // 28..30 are reserved; 31 is indefinite length, which dag-cbor forbids
  }

  function ReadHead(s: Bytes): (r: Option<Head>)
    ensures r.Some? ==> 1 <= r.value.size <= |s|
  {
    if s == [] then None
    else
      var info := s[0] as nat % 32;
      match ArgWidth(info)
      case None => None
      case Some(w) =>
        if |s| < 1 + w then None
        else Some(Head(s[0] as nat / 32, if w == 0 then info else BigEndian(s[1..1 + w]), 1 + w))
  }

  /** The length of the first `count` data items of s, if s starts with that many. */
  function Skip(s: Bytes, count: nat): (r: Option<nat>)
    ensures r.Some? ==> r.value <= |s|
    decreases |s|, 1
  {
    if count == 0 then Some(0)
    else
      match ReadHead(s)
      case None => None
      case Some(h) => SkipAfter(s, h, count - 1)
  }

  /** As Skip, where the head at the front of s is known and `count` items follow its own. */
  function SkipAfter(s: Bytes, h: Head, count: nat): (r: Option<nat>)
    requires h.size >= 1
    ensures r.Some? ==> r.value <= |s|
    decreases |s|, 0
  {
    if |s| < h.Extent() then None
    else
      match Skip(s[h.Extent()..], count + h.Children())
      case None => None
      case Some(k) => Some(h.Extent() + k)
  }

  /** s is exactly one well-formed data item. */
  predicate IsItem(s: Bytes) {
    Skip(s, 1) == Some(|s|)
  }

  lemma ReadHeadExtends(s: Bytes, t: Bytes)
    requires ReadHead(s).Some?
    ensures ReadHead(s + t) == ReadHead(s)
  {
    var w := ReadHead(s).value.size - 1;
    assert (s + t)[1..1 + w] == s[1..1 + w];
  }

  /** What is recognised at the front of a byte string does not depend on what follows it. */
  lemma {:induction false} SkipExtends(s: Bytes, t: Bytes, count: nat)
    requires Skip(s, count).Some?
    ensures Skip(s + t, count) == Skip(s, count)
    decreases |s|, 1
  {
    if count > 0 {
      ReadHeadExtends(s, t);
      SkipAfterExtends(s, t, ReadHead(s).value, count - 1);
    }
  }

  lemma {:induction false} SkipAfterExtends(s: Bytes, t: Bytes, h: Head, count: nat)
    requires h.size >= 1 && SkipAfter(s, h, count).Some?
    ensures SkipAfter(s + t, h, count) == SkipAfter(s, h, count)
    decreases |s|, 0
  {
    assert (s + t)[h.Extent()..] == s[h.Extent()..] + t;
    SkipExtends(s[h.Extent()..], t, count + h.Children());
  }

  /** No data item is a proper prefix of another. */
  lemma ItemsPrefixFree(a: Bytes, b: Bytes, x: Bytes, y: Bytes)
    requires IsItem(a) && IsItem(b)
    requires a + x == b + y
    ensures a == b && x == y
  {
    SkipExtends(a, x, 1);
    SkipExtends(b, y, 1);
    assert a == (a + x)[..|a|] == (b + y)[..|b|] == b;
    assert x == (a + x)[|a|..] == (b + y)[|b|..] == y;
  }

  ghost predicate AllItems(v: seq<Bytes>) {
    forall i :: 0 <= i < |v| ==> IsItem(v[i])
  }

  /** A data item is never empty, so only the empty vector concatenates to nothing. */
  lemma ConcatEmpty(v: seq<Bytes>)
    requires AllItems(v)
    ensures Concat(v) == [] <==> v == []
  {
    if v != [] {
      assert IsItem(v[0]) && !IsItem([]);
    }
  }

  /** Unique decodability: a concatenation of data items determines the items. */
  lemma {:induction false} ConcatInjective(v: seq<Bytes>, w: seq<Bytes>)
    requires AllItems(v) && AllItems(w)
    requires Concat(v) == Concat(w)
    ensures v == w
  {
    ConcatEmpty(v);
    ConcatEmpty(w);
    if v != [] && w != [] {
      ItemsPrefixFree(v[0], w[0], Concat(v[1..]), Concat(w[1..]));
      ConcatInjective(v[1..], w[1..]);
      assert v == [v[0]] + v[1..];
      assert w == [w[0]] + w[1..];
    }
  }

  /** Bodies that are not data items can be confused: the boundary between two senders is lost. */
  lemma BareConcatenationIsAmbiguous()
    ensures Concat([[1], [2, 3]]) == Concat([[1, 2], [3]])
    ensures [[1 as byte], [2, 3]] != [[1, 2], [3]]
  {
    calc {
      Concat([[1], [2, 3]]);
      [1] + Concat([[2 as byte, 3]]);
      [1] + ([2, 3] + Concat([]));
      [1, 2, 3 as byte];
      [1, 2] + ([3] + Concat([]));
      [1, 2] + Concat([[3 as byte]]);
      Concat([[1, 2], [3]]);
    }
    assert [[1 as byte], [2, 3]][0] != [[1 as byte, 2], [3]][0];
  }

  /** For arbitrary bodies, equal concatenations mean equal vectors exactly when the lengths agree. */
  lemma {:induction false} ConcatEqualIffLengthsAgree(v: seq<Bytes>, w: seq<Bytes>)
    requires |v| == |w| && Concat(v) == Concat(w)
    ensures v == w <==> forall i :: 0 <= i < |v| ==> |v[i]| == |w[i]|
  {
    if v != [] && forall i :: 0 <= i < |v| ==> |v[i]| == |w[i]| {
      assert v[0] == Concat(v)[..|v[0]|] == Concat(w)[..|w[0]|] == w[0];
      assert Concat(v[1..]) == Concat(v)[|v[0]|..] == Concat(w)[|w[0]|..] == Concat(w[1..]);
      forall i | 0 <= i < |v[1..]| ensures |v[1..][i]| == |w[1..][i]| {
        assert v[1..][i] == v[i + 1] && w[1..][i] == w[i + 1];
      }
      ConcatEqualIffLengthsAgree(v[1..], w[1..]);
      assert v == [v[0]] + v[1..] && w == [w[0]] + w[1..];
    }
  }

  // ---- The encoder and decoder of a byte vector ----

  function ToBigEndian(n: nat, width: nat): (s: Bytes)
    ensures |s| == width
  {
    if width == 0 then [] else ToBigEndian(n / 0x100, width - 1) + [(n % 0x100) as byte]
  }

  function Pow256(k: nat): nat {
    if k == 0 then 1 else 0x100 * Pow256(k - 1)
  }

  lemma {:induction false} BigEndianRoundTrip(n: nat, width: nat)
    requires n < Pow256(width)
    ensures BigEndian(ToBigEndian(n, width)) == n
  {
    if width > 0 {
      BigEndianRoundTrip(n / 0x100, width - 1);
      var s := ToBigEndian(n, width);
      assert s[..|s| - 1] == ToBigEndian(n / 0x100, width - 1);
    }
  }

  /** The shortest head, as deterministic encoding asks for. */
  function WriteHead(major: nat, arg: nat): Bytes
    requires major < 8 && arg < 0x1_0000_0000_0000_0000
  {
    if arg < 24 then [(major * 32 + arg) as byte]
    else if arg < 0x100 then [(major * 32 + 24) as byte] + ToBigEndian(arg, 1)
    else if arg < 0x1_0000 then [(major * 32 + 25) as byte] + ToBigEndian(arg, 2)
    else if arg < 0x1_0000_0000 then [(major * 32 + 26) as byte] + ToBigEndian(arg, 4)
    else [(major * 32 + 27) as byte] + ToBigEndian(arg, 8)
  }

  lemma Powers()
    ensures Pow256(1) == 0x100 && Pow256(2) == 0x1_0000
    ensures Pow256(4) == 0x1_0000_0000 && Pow256(8) == 0x1_0000_0000_0000_0000
  {
    assert Pow256(3) == 0x100_0000 && Pow256(5) == 0x100_0000_0000;
    assert Pow256(6) == 0x1_0000_0000_0000 && Pow256(7) == 0x100_0000_0000_0000;
  }

  lemma InitialByte(major: nat, info: nat)
    requires major < 8 && info < 32
    ensures (major * 32 + info) / 32 == major && (major * 32 + info) % 32 == info
  {
  }

  lemma WideHeadRoundTrip(major: nat, info: nat, w: nat, arg: nat, rest: Bytes)
    requires major < 8 && 24 <= info < 28 && ArgWidth(info) == Some(w) && arg < Pow256(w)
    ensures ReadHead([(major * 32 + info) as byte] + ToBigEndian(arg, w) + rest) == Some(Head(major, arg, 1 + w))
  {
    InitialByte(major, info);
    BigEndianRoundTrip(arg, w);
    var s := [(major * 32 + info) as byte] + ToBigEndian(arg, w) + rest;
    assert s[1..1 + w] == ToBigEndian(arg, w);
  }

  lemma HeadRoundTrip(major: nat, arg: nat, rest: Bytes)
    requires major < 8 && arg < 0x1_0000_0000_0000_0000
    ensures var h := WriteHead(major, arg); ReadHead(h + rest) == Some(Head(major, arg, |h|))
  {
    hide BigEndian, ToBigEndian, Pow256;
    Powers();
    if arg < 24 {
      InitialByte(major, arg);
    } else {
      hide ReadHead;
      if arg < 0x100 {
        WideHeadRoundTrip(major, 24, 1, arg, rest);
      } else if arg < 0x1_0000 {
        WideHeadRoundTrip(major, 25, 2, arg, rest);
      } else if arg < 0x1_0000_0000 {
        WideHeadRoundTrip(major, 26, 4, arg, rest);
      } else {
        WideHeadRoundTrip(major, 27, 8, arg, rest);
      }
    }
  }

  function EncodeElements(v: Bytes): Bytes {
    if v == [] then [] else WriteHead(0, v[0] as nat) + EncodeElements(v[1..])
  }

  /** A byte vector as one array item. */
  function Encode(v: Bytes): Bytes
    requires |v| < 0x1_0000_0000_0000_0000
  {
    WriteHead(4, |v|) + EncodeElements(v)
  }

  /** Reads `count` unsigned integers below 256 that fill s completely. */
  function DecodeElements(s: Bytes, count: nat): Option<Bytes>
    decreases count
  {
    if count == 0 then if s == [] then Some([]) else None
    else
      match ReadHead(s)
      case None => None
      case Some(h) =>
        if h.major != 0 || h.arg >= 0x100 then None
        else
          match DecodeElements(s[h.size..], count - 1)
          case None => None
          case Some(v) => Some([h.arg as byte] + v)
  }

  /** Decodes one array item of bytes; trailing bytes are an error. */
  function Decode(s: Bytes): Option<Bytes> {
    match ReadHead(s)
    case None => None
    case Some(h) => if h.major != 4 then None else DecodeElements(s[h.size..], h.arg)
  }

  lemma {:induction false} ElementsRoundTrip(v: Bytes)
    ensures DecodeElements(EncodeElements(v), |v|) == Some(v)
  {
    hide ReadHead, WriteHead;
    if v != [] {
      var head := WriteHead(0, v[0] as nat);
      HeadRoundTrip(0, v[0] as nat, EncodeElements(v[1..]));
      assert EncodeElements(v)[|head|..] == EncodeElements(v[1..]);
      ElementsRoundTrip(v[1..]);
      assert v == [v[0]] + v[1..];
    }
  }

  lemma RoundTrip(v: Bytes)
    requires |v| < 0x1_0000_0000_0000_0000
    ensures Decode(Encode(v)) == Some(v)
  {
    var head := WriteHead(4, |v|);
    HeadRoundTrip(4, |v|, EncodeElements(v));
    assert Encode(v)[|head|..] == EncodeElements(v);
    ElementsRoundTrip(v);
  }

  lemma NoElements(s: Bytes)
    requires DecodeElements(s, 0).Some?
    ensures s == [] && Skip(s, 0) == Some(0)
  {
  }

  lemma FirstElement(s: Bytes, count: nat)
    requires count > 0 && DecodeElements(s, count).Some?
    ensures ReadHead(s).Some? && ReadHead(s).value.major == 0
    ensures DecodeElements(s[ReadHead(s).value.size..], count - 1).Some?
  {
    hide ReadHead;
  }

  /** Past a number, the items that follow it. */
  lemma SkipNumber(s: Bytes, h: Head, count: nat)
    requires ReadHead(s) == Some(h) && h.major == 0 && Skip(s[h.size..], count) == Some(|s| - h.size)
    ensures Skip(s, count + 1) == Some(|s|)
  {
    hide ReadHead;
    assert SkipAfter(s, h, count) == Some(|s|);
  }

  lemma {:induction false} ElementsAreItems(s: Bytes, count: nat)
    requires DecodeElements(s, count).Some?
    ensures Skip(s, count) == Some(|s|)
    decreases count
  {
    hide ReadHead, DecodeElements, Skip;
    if count == 0 {
      NoElements(s);
    } else {
      FirstElement(s, count);
      var h := ReadHead(s).value;
      ElementsAreItems(s[h.size..], count - 1);
      SkipNumber(s, h, count - 1);
    }
  }

  /** Whatever the receiver decodes successfully was exactly one data item. */
  lemma DecodedIsItem(s: Bytes)
    requires Decode(s).Some?
    ensures IsItem(s)
  {
    var h := ReadHead(s).value;
    ElementsAreItems(s[h.size..], h.arg);
    assert SkipAfter(s, h, 0) == Some(|s|);
  }

  /** Every body an honest sender broadcasts is one data item. */
  lemma EncodedIsItem(v: Bytes)
    requires |v| < 0x1_0000_0000_0000_0000
    ensures IsItem(Encode(v))
  {
    RoundTrip(v);
    DecodedIsItem(Encode(v));
  }

  // ---- Which bytes are written ----

  /** The bytes of one element: below 24 the element itself, else 0x18 and the element. */
  function Element(x: byte): Bytes {
    if x < 24 then [x] else [0x18, x]
  }

  function ElementBytes(v: Bytes): Bytes {
    if v == [] then [] else Element(v[0]) + ElementBytes(v[1..])
  }

  lemma {:induction false} ElementsAre(v: Bytes)
    ensures EncodeElements(v) == ElementBytes(v)
  {
    if v != [] {
      ElementsAre(v[1..]);
      assert ToBigEndian(v[0] as nat, 1) == [v[0]];
    }
  }

  /** The head of an array of n elements, as in section 3 of RFC 8949. */
  function ArrayHead(n: nat): Bytes
    requires n < 0x1_0000
  {
    if n < 24 then [(0x80 + n) as byte]
    else if n < 0x100 then [0x98, n as byte]
    else [0x99, (n / 0x100) as byte, (n % 0x100) as byte]
  }

  lemma ArrayHeadIs(n: nat)
    requires n < 0x1_0000
    ensures WriteHead(4, n) == ArrayHead(n)
  {
    hide ToBigEndian;
    OneDigit(n % 0x100);
    TwoDigits(n);
  }

  lemma OneDigit(n: nat)
    requires n < 0x100
    ensures ToBigEndian(n, 1) == [n as byte]
  {
    assert ToBigEndian(n / 0x100, 0) == [];
  }

  lemma TwoDigits(n: nat)
    requires n < 0x1_0000
    ensures ToBigEndian(n, 2) == [(n / 0x100) as byte, (n % 0x100) as byte]
  {
    OneDigit(n / 0x100);
  }

  /** The item of a byte vector: the head of an array of that many elements, and the elements. */
  lemma EncodedBytes(v: Bytes)
    requires |v| < 0x1_0000
    ensures Encode(v) == ArrayHead(|v|) + ElementBytes(v)
  {
    hide WriteHead, ArrayHead, ElementBytes, EncodeElements;
    ElementsAre(v);
    ArrayHeadIs(|v|);
  }
}
