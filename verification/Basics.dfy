/** Shared vocabulary: bytes as they travel on the socket, and the usual result types. */
module Basics {

  newtype byte = x: int | 0 <= x < 256

  /** A run of bytes: a field, a payload, a buffer, a whole stream. */
  type Text = seq<byte>

  datatype Option<+T> = None | Some(value: T)

  /** The outcome of a reader. Go panics inside a worker are recovered there, so a panic is a value here. */
  datatype Result<+T> = Success(value: T) | Panic {
    predicate IsFailure() { Panic? }

    function PropagateFailure<U>(): Result<U>
      requires Panic?
    {
      Panic
    }

    function Extract(): T
      requires Success?
    {
      value
    }
  }

  function Max(a: int, b: int): int { if a <= b then b else a }

  /** n fields if a version or a flag asks for them. */
  function Gate(on: bool, n: nat): nat { if on then n else 0 }

  /** All elements of a list of lists, in order. */
  function Flatten<T>(ss: seq<seq<T>>): seq<T> {
    if ss == [] then [] else ss[0] + Flatten(ss[1..])
  }

  lemma {:induction false} FlattenConcat<T>(a: seq<seq<T>>, b: seq<seq<T>>)
    ensures Flatten(a + b) == Flatten(a) + Flatten(b)
  {
    if a == [] {
      assert a + b == b;
    } else {
      assert (a + b)[1..] == a[1..] + b;
      FlattenConcat(a[1..], b);
    }
  }
}
