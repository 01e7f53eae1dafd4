/** What the models share: optional and fallible results, bytes, and a fact about set sizes. */
module Prelude {

  datatype Option<+T> = None | Some(value: T)

  datatype Result<+T> = Ok(value: T) | Err(reason: string) {
    predicate IsFailure() { Err? }
    function PropagateFailure<U>(): Result<U>
      requires Err?
    { Err(reason) }
    function Extract(): T
      requires Ok?
    { value }
  }

  type byte = b: int | 0 <= b < 256
  type Bytes = seq<byte>

  lemma SubsetCard<T>(a: set<T>, b: set<T>)
    requires a <= b
    ensures |a| <= |b|
  {
    assert b == a + (b - a);
  }
}
