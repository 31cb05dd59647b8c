/** Small things shared by the other modules. */
module Options {
  datatype Option<+T> = None | Some(value: T)
}

module Counting {
  lemma {:induction false} SubsetCount(a: set<nat>, b: set<nat>)
    requires a <= b
    ensures |a| <= |b|
  {
    if a != {} {
      var x :| x in a;
      SubsetCount(a - {x}, b - {x});
    }
  }
}

/** Division with remainder, where the divisor is not a constant. */
module Division {
  lemma AtLeast(d: nat, e: nat)
    requires e > 0
    ensures d * e >= d
  {}

  lemma SameQuotient(d: nat, q: nat, r: nat, q': nat, r': nat)
    requires d * q + r == d * q' + r' && r < d && r' < d
    ensures q == q'
  {
    if q < q' {
      AtLeast(d, q' - q);
    } else if q' < q {
      AtLeast(d, q - q');
    }
  }

  lemma Quotient(n: nat, d: nat, q: nat, r: nat)
    requires d > 0 && n == d * q + r && r < d
    ensures n / d == q
  {
    assert n == d * (n / d) + n % d;
    SameQuotient(d, q, r, n / d, n % d);
  }

  /** Equal quotients: the two numbers lie in the same block of size d. */
  lemma SameBlock(x: nat, y: nat, d: nat)
    requires d > 0
    ensures x / d == y / d <==> x - x % d <= y < x - x % d + d
  {
    assert x == d * (x / d) + x % d && y == d * (y / d) + y % d;
    var lo := x - x % d;
    if lo <= y < lo + d {
      Quotient(y, d, x / d, y - lo);
    }
  }
}
