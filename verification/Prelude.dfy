// Small datatypes shared by the other modules.
module Prelude {
  datatype Option<+T> = None | Some(value: T) {
    function GetOr(default: T): T
    {
      if None? then default else value
    }
  }

  datatype Result<+T, +E> = Ok(value: T) | Refused(why: E)

  // A number as it reaches a validator. NaN, the infinities, booleans and text
  // are refused by one and the same test, so one constructor stands for all.
  datatype Number = Finite(value: real) | Unusable

  lemma SubsetSize<T>(a: set<T>, b: set<T>)
    requires a <= b
    ensures |a| <= |b|
  {
    assert b == a + (b - a);
  }
}
