/** Bytes, C integers and flattening, shared by every part of the model. */
module Basics {

  /** `unsigned char`. */
  newtype byte = x: int | 0 <= x < 0x100

  /** C's `int`: arithmetic at this type verifies only if it cannot overflow. */
  newtype int32 = x: int | -0x8000_0000 <= x < 0x8000_0000

  type Bytes = seq<byte>

  datatype Option<+T> = None | Some(value: T)

  // errno values the modelled code returns or compares with.
  const ENOENT: int32 := 2
  const EAGAIN: int32 := 11
  const EBUSY: int32 := 16
  const EINVAL: int32 := 22
  const ECONNRESET: int32 := 104

  function Concat(parts: seq<Bytes>): Bytes {
    if parts == [] then [] else parts[0] + Concat(parts[1..])
  }

  lemma {:induction false} ConcatAppend(a: seq<Bytes>, b: seq<Bytes>)
    ensures Concat(a + b) == Concat(a) + Concat(b)
  {
    if a == [] {
      assert a + b == b;
    } else {
      assert (a + b)[1..] == a[1..] + b;
      ConcatAppend(a[1..], b);
      Assoc(a[0], Concat(a[1..]), Concat(b));
    }
  }

  lemma ConcatOne(p: Bytes)
    ensures Concat([p]) == p
  {
  }

  lemma Assoc<T>(a: seq<T>, b: seq<T>, c: seq<T>)
    ensures (a + b) + c == a + (b + c)
  {
  }

  lemma TakeOfAppend<T>(a: seq<T>, b: seq<T>, n: nat)
    requires |a| <= n <= |a| + |b|
    ensures (a + b)[..n] == a + b[..n - |a|]
  {
  }

  lemma CancelRight<T>(a: seq<T>, b: seq<T>, c: seq<T>)
    requires a + c == b + c
    ensures a == b
  {
    assert |a + c| == |a| + |c| && |b + c| == |b| + |c|;
    assert (a + c)[..|a|] == a && (b + c)[..|b|] == b;
  }

  lemma ConcatCons(p: Bytes, parts: seq<Bytes>)
    ensures Concat([p] + parts) == p + Concat(parts)
  {
  }

  lemma ConcatSnoc(parts: seq<Bytes>, p: Bytes)
    ensures Concat(parts + [p]) == Concat(parts) + p
  {
    ConcatAppend(parts, [p]);
    ConcatOne(p);
  }
}
