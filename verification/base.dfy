/** Small shared vocabulary: optional values, results, JavaScript truthiness of
    optional strings and the subsequence relation used by the list filters. */
module Base {

  /** An optional value; `None` stands for JavaScript's `undefined`/`null`. */
  datatype Option<+T> = None | Some(value: T) {
    function GetOr(default: T): T {
      match this
      case Some(v) => v
      case None => default
    }
  }

  /** The two ways an error-first callback can be invoked with a value. */
  datatype Result<+T, +E> = Ok(value: T) | Err(error: E)

  /** JavaScript truthiness of an optional string: absent and `''` are falsy. */
  predicate Truthy(s: Option<string>) {
    s.Some? && s.value != ""
  }

  /** `xs` can be obtained from `ys` by deleting elements, keeping the order. */
  predicate IsSubsequence<T(==)>(xs: seq<T>, ys: seq<T>)
    decreases |ys|
  {
    if xs == [] then true
    else if ys == [] then false
    else if xs[0] == ys[0] then IsSubsequence(xs[1..], ys[1..])
    else IsSubsequence(xs, ys[1..])
  }

  lemma {:induction false} SubsequenceNotLonger<T>(xs: seq<T>, ys: seq<T>)
    requires IsSubsequence(xs, ys)
    ensures |xs| <= |ys|
    ensures forall x :: x in xs ==> x in ys
    decreases |ys|
  {
    if xs == [] {
    } else if xs[0] == ys[0] {
      SubsequenceNotLonger(xs[1..], ys[1..]);
      forall x | x in xs ensures x in ys {
        if x != xs[0] {
          assert x in xs[1..];
        }
      }
    } else {
      SubsequenceNotLonger(xs, ys[1..]);
    }
  }
}
