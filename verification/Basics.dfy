/** Types and a copy loop that several components share. */
module Basics {
  datatype Option<+T> = None | Some(value: T)

  // What polling a future or a device returns.
  datatype Poll<+T> = Pending | Ready(value: T)

  // A finite run is a list of events.
  datatype List<+T> = Nil | Cons(head: T, tail: List<T>)

  function Concat<T>(a: List<T>, b: List<T>): List<T> {
    match a
    case Nil => b
    case Cons(x, rest) => Cons(x, Concat(rest, b))
  }

  function Single<T>(x: T): List<T> {
    Cons(x, Nil)
  }

  datatype Error = UnexpectedEof | WriteZero | Other

  datatype Result<+T> = Ok(value: T) | Err(error: Error)

  // Instant::MAX
  const MAX: nat := 0xFFFF_FFFF_FFFF_FFFF

  type Byte = x: int | 0 <= x < 256

  function Min(a: nat, b: nat): nat {
    if a < b then a else b
  }

  // a[at..at + |bytes|].copy_from_slice(bytes)
  method CopyFromSlice(a: array<Byte>, at: nat, bytes: seq<Byte>)
    requires at + |bytes| <= a.Length
    modifies a
    ensures a[..] == old(a[..at]) + bytes + old(a[at + |bytes|..])
  {
    for i := 0 to |bytes|
      invariant forall k :: 0 <= k < a.Length ==> a[k] == if at <= k < at + i then bytes[k - at] else old(a[k])
    {
      a[at + i] := bytes[i];
    }
    assert a[..] == old(a[..at]) + bytes + old(a[at + |bytes|..]);
  }

  lemma MoveAcross(a: seq<Byte>, c: seq<Byte>, n: nat)
    requires n <= |c|
    ensures a + c == a + c[..n] + c[n..]
  {
    assert c == c[..n] + c[n..];
  }

  lemma Distribute(a: int, b: int, h: int)
    ensures (a + b) * h == a * h + b * h
  {
  }

  lemma Cancel(a: int, b: int, h: int)
    requires h > 0
    ensures a < b ==> a * h + h <= b * h
  {
    if a < b { Distribute(a, b - a, h); }
  }

  lemma RemainderIs(n: int, m: int, k: int, c: int)
    requires 0 <= c < m && n == k * m + c
    ensures n / m == k && n % m == c
  {
    Cancel(k, n / m, m);
    Cancel(n / m, k, m);
  }
}
