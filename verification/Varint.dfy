/** Unsigned varints: seven bits to a byte, low bits first, as in the multiformats unsigned-varint specification. */
module Varint {
  import opened Basics

  const U64: nat := 0x1_0000_0000_0000_0000

  /** Bytes that a 64-bit number can take. */
  const U64_BYTES: nat := 10

  const U8: nat := 0x100

  /** Bytes that an 8-bit number can take. */
  const U8_BYTES: nat := 2

  datatype VarintError = UnexpectedEof | NotMinimal | Overflow

  function Write(n: nat): (r: Bytes)
    ensures r != []
  {
    if n < 0x80 then [n as byte] else [(n % 0x80 + 0x80) as byte] + Write(n / 0x80)
  }

  /** How many bytes the varint at the front takes, when at most `limit` are allowed. */
  function Length(b: Bytes, limit: nat): (r: Result<nat, VarintError>)
    ensures r.Ok? ==> 0 < r.value <= |b| && r.value <= limit && b[r.value - 1] < 0x80
  {
    if limit == 0 then Err(Overflow)
    else if b == [] then Err(UnexpectedEof)
    else if b[0] < 0x80 then Ok(1)
    else
      match Length(b[1..], limit - 1)
      case Ok(k) => Ok(k + 1)
      case Err(e) => Err(e)
  }

  function Value(digits: Bytes): nat {
    if digits == [] then 0 else digits[0] as nat % 0x80 + 0x80 * Value(digits[1..])
  }

  /** The number at the front, and the bytes after it; bits that do not fit the type are shifted out. */
  function Read(b: Bytes, limit: nat, modulus: nat): (r: Result<(nat, Bytes), VarintError>)
    requires modulus > 0
    ensures r.Ok? ==> |r.value.1| < |b| && r.value.0 < modulus
  {
    match Length(b, limit)
    case Err(e) => Err(e)
    case Ok(k) =>
      if k > 1 && b[k - 1] == 0 then Err(NotMinimal) else Ok((Value(b[..k]) % modulus, b[k..]))
  }

  function ReadU64(b: Bytes): (r: Result<(nat, Bytes), VarintError>)
    ensures r.Ok? ==> |r.value.1| < |b| && r.value.0 < U64
  {
    Read(b, U64_BYTES, U64)
  }

  function ReadU8(b: Bytes): (r: Result<(nat, Bytes), VarintError>)
    ensures r.Ok? ==> |r.value.1| < |b| && r.value.0 < U8
  {
    Read(b, U8_BYTES, U8)
  }

  // ---- What is written is read back ----

  function Pow(k: nat): (r: nat)
    ensures r > 0
  {
    if k == 0 then 1 else 0x80 * Pow(k - 1)
  }

  lemma {:induction false} WriteFits(n: nat, k: nat)
    requires n < Pow(k) && k > 0
    ensures |Write(n)| <= k
  {
    if n >= 0x80 {
      WriteFits(n / 0x80, k - 1);
    }
  }

  lemma {:induction false} WriteLength(n: nat, rest: Bytes, limit: nat)
    requires |Write(n)| <= limit
    ensures Length(Write(n) + rest, limit) == Ok(|Write(n)|)
  {
    if n >= 0x80 {
      var b := Write(n) + rest;
      assert b[1..] == Write(n / 0x80) + rest;
      WriteLength(n / 0x80, rest, limit - 1);
    }
  }

  lemma {:induction false} WriteValue(n: nat)
    ensures Value(Write(n)) == n && (n > 0 ==> Write(n)[|Write(n)| - 1] != 0)
  {
    if n < 0x80 {
      assert Value([n as byte][1..]) == 0;
    } else {
      WriteValue(n / 0x80);
      assert Write(n)[1..] == Write(n / 0x80);
      assert n == 0x80 * (n / 0x80) + n % 0x80;
    }
  }

  lemma ModSmall(n: nat, modulus: nat)
    requires n < modulus
    ensures n % modulus == n
  {
  }

  lemma OneByte(n: nat)
    ensures |Write(n)| > 1 ==> n > 0
  {
  }

  /** Reading undoes writing, and consumes exactly the bytes written. */
  lemma RoundTrip(n: nat, rest: Bytes, limit: nat, modulus: nat)
    requires n < modulus && |Write(n)| <= limit
    ensures Read(Write(n) + rest, limit, modulus) == Ok((n, rest))
  {
    hide Length, Value, Write;
    WriteLength(n, rest, limit);
    WriteValue(n);
    var k := |Write(n)|;
    assert (Write(n) + rest)[..k] == Write(n) && (Write(n) + rest)[k..] == rest;
    ModSmall(n, modulus);
    OneByte(n);
  }

  lemma RoundTripU64(n: nat, rest: Bytes)
    requires n < U64
    ensures ReadU64(Write(n) + rest) == Ok((n, rest))
  {
    PowU64();
    WriteFits(n, U64_BYTES);
    RoundTrip(n, rest, U64_BYTES, U64);
  }

  lemma PowU64()
    ensures U64 <= Pow(U64_BYTES)
  {
    assert Pow(3) == 0x80 * Pow(2) == 0x20_0000;
    assert Pow(6) == 0x80 * Pow(5) && Pow(5) == 0x80 * Pow(4) && Pow(4) == 0x80 * Pow(3);
    assert Pow(9) == 0x80 * Pow(8) && Pow(8) == 0x80 * Pow(7) && Pow(7) == 0x80 * Pow(6);
  }

  lemma RoundTripU8(n: nat, rest: Bytes)
    requires n < U8
    ensures ReadU8(Write(n) + rest) == Ok((n, rest))
  {
    assert Pow(2) == 0x80 * Pow(1) == 0x4000;
    WriteFits(n, U8_BYTES);
    RoundTrip(n, rest, U8_BYTES, U8);
  }

  // ---- Only one way to write a number ----

  lemma {:induction false} OneWriting(b: Bytes, limit: nat)
    requires Length(b, limit).Ok?
    requires var k := Length(b, limit).value; k == 1 || b[k - 1] != 0
    ensures b[..Length(b, limit).value] == Write(Value(b[..Length(b, limit).value]))
  {
    var k := Length(b, limit).value;
    if b[0] < 0x80 {
      assert b[..1][1..] == [];
    } else {
      OneWriting(b[1..], limit - 1);
      var tail := b[1..][..k - 1];
      assert b[..k][1..] == tail;
      assert b[..k] == [b[0]] + tail;
      LastDigit(tail);
      assert Value(b[..k]) / 0x80 == Value(tail);
    }
  }

  /** A varint whose last byte is not zero does not stand for zero. */
  lemma {:induction false} LastDigit(digits: Bytes)
    requires digits != [] && 0 < digits[|digits| - 1] < 0x80
    ensures Value(digits) > 0
  {
    if |digits| > 1 {
      LastDigit(digits[1..]);
    }
  }

  /** The minimal form: bytes that are read as a number that fits its type are the ones written for it. */
  lemma Canonical(b: Bytes, limit: nat, modulus: nat)
    requires modulus > 0 && Read(b, limit, modulus).Ok?
    requires Value(b[..Length(b, limit).value]) < modulus
    ensures var (n, rest) := Read(b, limit, modulus).value; b == Write(n) + rest
  {
    hide Length, Value, Write;
    OneWriting(b, limit);
    var k := Length(b, limit).value;
    assert b == b[..k] + b[k..];
    ModSmall(Value(b[..k]), modulus);
  }

  // ---- Which bytes are written ----

  lemma DivDiv(n: nat, m: nat)
    requires m > 0
    ensures n / 0x80 / m == n / (0x80 * m)
  {
    var q, r := n / 0x80, n % 0x80;
    var t, u := q / m, q % m;
    assert n == 0x80 * m * t + (0x80 * u + r);
    Quotient(n, 0x80 * m, t, 0x80 * u + r);
  }

  lemma Quotient(n: nat, d: nat, q: nat, r: nat)
    requires d > 0 && n == d * q + r && r < d
    ensures n / d == q
  {
    var k, e := n / d, n % d;
    assert n == d * k + e;
    if k < q {
      NextMultiple(d, k, q);
    } else if k > q {
      NextMultiple(d, q, k);
    }
  }

  lemma {:induction false} NextMultiple(d: nat, k: nat, q: nat)
    requires k < q
    ensures d * k + d <= d * q
  {
    if k + 1 < q {
      NextMultiple(d, k, q - 1);
    }
    assert d * (q - 1) + d == d * q;
  }

  /** Byte k holds bits 7k to 7k+6 of the number, and its high bit says whether another byte follows. */
  lemma {:induction false} WrittenDigit(n: nat, k: nat)
    requires k < |Write(n)|
    ensures Write(n)[k] as nat == n / Pow(k) % 0x80 + if k + 1 < |Write(n)| then 0x80 else 0
  {
    if k > 0 {
      WrittenDigit(n / 0x80, k - 1);
      DivDiv(n, Pow(k - 1));
    }
  }

  /** There are as many bytes as the number needs. */
  lemma {:induction false} WrittenLength(n: nat)
    ensures n < Pow(|Write(n)|) && (n > 0 ==> n >= Pow(|Write(n)| - 1))
  {
    if n >= 0x80 {
      WrittenLength(n / 0x80);
    } else {
      assert Pow(1) == 0x80 * Pow(0);
    }
  }

  // ---- What is not a number ----

  ghost predicate Unfinished(b: Bytes, k: nat) {
    k <= |b| && forall i :: 0 <= i < k ==> b[i] >= 0x80
  }

  /**
    A varint ends with the first byte below 128.  If there is none among the first `limit`, the input is
    too long or, having fewer bytes than that, too short.
  */
  lemma {:induction false} LengthIs(b: Bytes, limit: nat)
    ensures match Length(b, limit)
            case Ok(k) => 0 < k <= |b| && k <= limit && b[k - 1] < 0x80 && Unfinished(b, k - 1)
            case Err(e) =>
              if |b| < limit then e == UnexpectedEof && Unfinished(b, |b|) else e == Overflow && Unfinished(b, limit)
  {
    if limit > 0 && b != [] && b[0] >= 0x80 {
      LengthIs(b[1..], limit - 1);
      assert forall i :: 0 < i < |b| ==> b[i] == b[1..][i - 1];
    }
  }

  lemma {:induction false} WrittenUnfinished(n: nat)
    ensures Unfinished(Write(n), |Write(n)| - 1)
  {
    if n >= 0x80 {
      WrittenUnfinished(n / 0x80);
      var tail := Write(n / 0x80);
      assert Write(n)[1..] == tail;
      assert forall i :: 0 < i < |Write(n)| ==> Write(n)[i] == tail[i - 1];
    }
  }

  /** A number of which the end is missing is not read as another one. */
  lemma CutNumber(n: nat, k: nat)
    requires n < U64 && k < |Write(n)|
    ensures ReadU64(Write(n)[..k]) == Err(UnexpectedEof)
  {
    hide Write, Length, Pow;
    var b := Write(n)[..k];
    WrittenUnfinished(n);
    PowU64();
    WriteFits(n, U64_BYTES);
    LengthIs(b, U64_BYTES);
  }
}
