/** Small shared vocabulary: optional values, Python truthiness of the few
    value kinds the scrapers test, `range(n)` lengths, and the two draws from
    Python's `random` module that the mock generators use. */
module Prelude {

  datatype Option<+T> = None | Some(value: T)

  /** What a Python call ends in: a returned value, or an exception that
      propagates to the caller. */
  datatype Outcome<+T> = Returned(value: T) | Raised

  /** Python truthiness of an optional string: present and non-empty. */
  predicate Truthy(s: Option<string>)
  {
    s.Some? && s.value != ""
  }

  /** Number of iterations of `for i in range(n)`: none when n is negative. */
  function RangeCount(n: int): (c: nat)
    ensures n >= 0 ==> c == n
    ensures n < 0 ==> c == 0
  {
    if n < 0 then 0 else n
  }

  /** `random.randint(lo, hi)`: some integer in the inclusive range. */
  method RandInt(lo: int, hi: int) returns (r: int)
    requires lo <= hi
    ensures lo <= r <= hi
  {
    r :| lo <= r <= hi;
  }

  /** `random.choice(xs)`: some element of a non-empty list. */
  method Choice<T(==)>(xs: seq<T>) returns (x: T)
    requires |xs| > 0
    ensures x in xs
  {
    assert xs[0] in xs;
    x :| x in xs;
  }
}
