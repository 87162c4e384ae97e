/**
  Types shared by the whole model: optional values, results of operations that
  throw in the relayer, and byte strings (the relayer's lower-case hex strings).
 */
module Prelude {

  datatype Option<+T> = None | Some(value: T)

  /** An operation either returns or throws; `reason` names the throw. */
  datatype Result<+T> = Ok(value: T) | Err(reason: string) {
    predicate IsFailure() { Err? }

    function PropagateFailure<U>(): Result<U>
      requires Err?
    {
      Err(reason)
    }

    function Extract(): T
      requires Ok?
    {
      value
    }
  }

  /** `if (!condition) throw` */
  datatype Check = Pass | Throw(reason: string) {
    predicate IsFailure() { Throw? }

    function PropagateFailure<U>(): Result<U>
      requires Throw?
    {
      Err(reason)
    }
  }

  function Need(condition: bool, reason: string): Check {
    if condition then Pass else Throw(reason)
  }

  /** Lower-case hex text, where the relayer compares it as text. */
  type Hex = string

  type Byte = b: int | 0 <= b < 256
  type Bytes = seq<Byte>

  const MAX_SAFE_INTEGER: int := 0x1F_FFFF_FFFF_FFFF
  const ERGO_LONG_MAX: int := 0x7FFF_FFFF_FFFF_FFFF

  predicate Distinct<T(==)>(s: seq<T>) {
    forall i, j :: 0 <= i < j < |s| ==> s[i] != s[j]
  }

  /** The relayer's `safeNanoErgNumber` on an exact integer. */
  function SafeNanoErg(value: int): Result<nat> {
    if 0 <= value <= MAX_SAFE_INTEGER then Ok(value)
    else Err("outside JavaScript safe integer range")
  }

  function Sum(s: seq<int>): int {
    if s == [] then 0 else Sum(s[..|s| - 1]) + s[|s| - 1]
  }

  lemma {:induction false} SumAppend(a: seq<int>, b: seq<int>)
    ensures Sum(a + b) == Sum(a) + Sum(b)
  {
    if b == [] {
      assert a + b == a;
    } else {
      var k := |b| - 1;
      assert (a + b)[..|a + b| - 1] == a + b[..k];
      SumAppend(a, b[..k]);
    }
  }

  /** Two listings of the same elements have the same members and length. */
  lemma SameMembers<T>(a: seq<T>, b: seq<T>)
    requires multiset(a) == multiset(b)
    ensures |a| == |b|
    ensures forall x :: x in a ==> x in b
    ensures forall x :: x in b ==> x in a
  {
    assert |multiset(a)| == |a| && |multiset(b)| == |b|;
    forall x
      ensures x in a <==> x in b
    {
      assert x in a <==> x in multiset(a);
      assert x in b <==> x in multiset(b);
    }
  }
}
