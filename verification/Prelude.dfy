/** Small building blocks every other module shares. */
module Prelude {

  datatype Option<+T> = None | Some(value: T)

  datatype Result<+T, +E> = Success(value: T) | Failure(error: E)

  function Max(a: real, b: real): (m: real)
    ensures m >= a && m >= b && (m == a || m == b)
  {
    if a >= b then a else b
  }

  function Min(a: real, b: real): (m: real)
    ensures m <= a && m <= b && (m == a || m == b)
  {
    if a <= b then a else b
  }

  function Abs(a: real): (r: real)
    ensures r >= 0.0 && (r == a || r == -a)
  {
    if a < 0.0 then -a else a
  }

  function Later(a: nat, b: nat): (m: nat)
    ensures m >= a && m >= b && (m == a || m == b)
  {
    if a >= b then a else b
  }

  function Last<T>(s: seq<T>): T
    requires s != []
  {
    s[|s| - 1]
  }

  function Front<T>(s: seq<T>): seq<T>
    requires s != []
  {
    s[..|s| - 1]
  }

  /** The newest `limit` items: what a list trimmed from the left keeps. */
  function Tail<T>(s: seq<T>, limit: nat): (t: seq<T>)
    ensures |t| == if |s| <= limit then |s| else limit
    ensures limit > 0 && s != [] ==> t != [] && Last(t) == Last(s)
  {
    if |s| <= limit then s else s[|s| - limit..]
  }

  function Sum(xs: seq<real>): real {
    if xs == [] then 0.0 else Sum(Front(xs)) + Last(xs)
  }

  function Mean(xs: seq<real>): real
    requires xs != []
  {
    Sum(xs) / (|xs| as real)
  }

  /** Positions of a list of n items, in order. */
  predicate Picks(picked: seq<nat>, n: nat) {
    && (forall i :: 0 <= i < |picked| ==> picked[i] < n)
    && (forall i, j :: 0 <= i < j < |picked| ==> picked[i] < picked[j])
  }
}
