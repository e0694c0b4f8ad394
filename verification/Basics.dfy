/** Types shared by every component of the model. */
module Basics {
  newtype byte = x: int | 0 <= x < 0x100

  type Bytes = seq<byte>

  datatype Option<+T> = None | Some(value: T)

  datatype Result<+T, +E> = Ok(value: T) | Err(error: E)

  /** The concatenation of a vector of payloads, in order. */
  function Concat(v: seq<Bytes>): Bytes {
    if v == [] then [] else v[0] + Concat(v[1..])
  }

  lemma Regroup<T>(a: seq<T>, b: seq<T>, c: seq<T>)
    ensures (a + b) + c == a + (b + c)
  {
  }

  lemma {:induction false} ConcatAppend(a: seq<Bytes>, b: seq<Bytes>)
    ensures Concat(a + b) == Concat(a) + Concat(b)
  {
    if a == [] {
      assert a + b == b;
    } else {
      assert (a + b)[1..] == a[1..] + b;
      ConcatAppend(a[1..], b);
    }
  }

  /** The numbers 1..n. */
  function UpTo(n: nat): (r: set<nat>)
    ensures forall k: nat :: k in r <==> 1 <= k <= n
  {
    if n == 0 then {} else UpTo(n - 1) + {n}
  }

  lemma {:induction false} UpToCount(n: nat)
    ensures |UpTo(n)| == n
  {
    if n > 0 {
      UpToCount(n - 1);
    }
  }

  /** A subset is no larger, and equally large only if it is everything. */
  lemma {:induction false} SubsetCount<T>(a: set<T>, b: set<T>)
    requires a <= b
    ensures |a| <= |b| && (|a| == |b| ==> a == b)
  {
    if a != {} {
      var x :| x in a;
      SubsetCount(a - {x}, b - {x});
      assert a == (a - {x}) + {x} && b == (b - {x}) + {x};
    }
  }

  /** The front of a concatenation is the front of its first part, or all of that and a front of the rest. */
  lemma FrontOf<T>(a: seq<T>, b: seq<T>, k: nat)
    requires k <= |a| + |b|
    ensures (a + b)[..k] == if k < |a| then a[..k] else a + b[..k - |a|]
  {
  }
}
