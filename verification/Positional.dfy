/** Positional notation in any base, most significant digit first. */
module Positional {
  type byte = n: nat | n < 256

  predicate Digits(b: nat, ds: seq<nat>) {
    forall i :: 0 <= i < |ds| ==> ds[i] < b
  }

  function Value(b: nat, ds: seq<nat>): nat {
    if ds == [] then 0 else Value(b, ds[..|ds| - 1]) * b + ds[|ds| - 1]
  }

  /** The digits of `n` without leading zeros; none at all for 0. */
  function ToDigits(b: nat, n: nat): seq<nat>
    requires b >= 2
  {
    if n == 0 then [] else ToDigits(b, n / b) + [n % b]
  }

  function Zeros(n: nat): seq<nat> {
    if n == 0 then [] else Zeros(n - 1) + [0]
  }

  function LeadingZeros(ds: seq<nat>): nat {
    if ds != [] && ds[0] == 0 then 1 + LeadingZeros(ds[1..]) else 0
  }

  function Pow(b: nat, e: nat): nat {
    if e == 0 then 1 else b * Pow(b, e - 1)
  }

  lemma MulMonotone(a: int, b: int, c: nat)
    requires a <= b
    ensures a * c <= b * c
    ensures a < b ==> a * c + c <= b * c
  {
    if a < b { assert (a + 1) * c <= b * c; }
  }

  lemma QuotientRemainder(b: nat, v: nat, d: nat)
    requires b >= 2 && d < b
    ensures (v * b + d) / b == v && (v * b + d) % b == d
    ensures v * b + d == 0 <==> v == 0 && d == 0
  {
    var n := v * b + d;
    var q, r := n / b, n % b;
    assert n == q * b + r;
    if q < v { MulMonotone(q, v, b); }
    if q > v { MulMonotone(v, q, b); }
    MulMonotone(0, v, b);
    if v > 0 { MulMonotone(1, v, b); }
  }

  lemma QuotientSmaller(b: nat, n: nat)
    requires b >= 2 && n > 0
    ensures n / b < n && n == (n / b) * b + n % b
  {
    var q := n / b;
    assert n == q * b + n % b;
    if q >= n { MulMonotone(n, q, b); MulMonotone(2, b, n); }
  }

  lemma {:induction false} ToDigitsValue(b: nat, n: nat)
    requires b >= 2
    ensures Digits(b, ToDigits(b, n)) && Value(b, ToDigits(b, n)) == n
    ensures n > 0 ==> ToDigits(b, n) != [] && ToDigits(b, n)[0] > 0
  {
    if n > 0 {
      var q, r := n / b, n % b;
      QuotientSmaller(b, n);
      ToDigitsValue(b, q);
      var ds := ToDigits(b, q);
      assert ToDigits(b, n) == ds + [r] && (ds + [r])[..|ds|] == ds;
    }
  }

  lemma ZerosShape(n: nat)
    ensures |Zeros(n)| == n && forall i :: 0 <= i < n ==> Zeros(n)[i] == 0
  {
  }

  /** Appending a digit commutes with dropping the leading zeros. */
  lemma {:induction false} LeadingZerosAppend(ds: seq<nat>, d: nat)
    ensures LeadingZeros(ds) <= |ds|
    ensures LeadingZeros(ds + [d]) == if LeadingZeros(ds) == |ds| && d == 0 then |ds| + 1 else LeadingZeros(ds)
  {
    if ds != [] {
      assert (ds + [d])[1..] == ds[1..] + [d];
      LeadingZerosAppend(ds[1..], d);
    } else {
      assert (ds + [d])[1..] == [];
    }
  }

  /** Every digit sequence is its leading zeros followed by the digits of its value. */
  lemma {:induction false} Canonical(b: nat, ds: seq<nat>)
    requires b >= 2 && Digits(b, ds)
    ensures LeadingZeros(ds) <= |ds|
    ensures ds == Zeros(LeadingZeros(ds)) + ToDigits(b, Value(b, ds))
    ensures Value(b, ds) == 0 <==> LeadingZeros(ds) == |ds|
  {
    if ds != [] {
      var init, d := ds[..|ds| - 1], ds[|ds| - 1];
      assert ds == init + [d];
      Canonical(b, init);
      LeadingZerosAppend(init, d);
      var v := Value(b, init);
      assert Value(b, ds) == v * b + d;
      if v * b + d > 0 {
        QuotientRemainder(b, v, d);
        assert ToDigits(b, v * b + d) == ToDigits(b, v) + [d];
      }
    }
  }

  /** Prepending zeros to digits that start with none gives exactly that many leading zeros, and keeps the value. */
  lemma {:induction false} PrependZeros(b: nat, z: nat, ds: seq<nat>)
    requires ds == [] || ds[0] != 0
    ensures LeadingZeros(Zeros(z) + ds) == z && Value(b, Zeros(z) + ds) == Value(b, ds)
    decreases z + |ds|
  {
    var all := Zeros(z) + ds;
    if ds != [] {
      var init, d := ds[..|ds| - 1], ds[|ds| - 1];
      assert all == (Zeros(z) + init) + [d];
      assert all[..|all| - 1] == Zeros(z) + init;
      PrependZeros(b, z, init);
      LeadingZerosAppend(Zeros(z) + init, d);
      ZerosShape(z);
    } else if z > 0 {
      assert all == Zeros(z - 1) + [0] && Zeros(z - 1) + ds == Zeros(z - 1);
      assert all[..|all| - 1] == Zeros(z - 1);
      PrependZeros(b, z - 1, ds);
      LeadingZerosAppend(Zeros(z - 1), 0);
      ZerosShape(z - 1);
    } else {
      assert all == [];
    }
  }

  lemma {:induction false} PowPositive(b: nat, e: nat)
    requires b > 0
    ensures Pow(b, e) > 0
  {
    if e > 0 { PowPositive(b, e - 1); }
  }

  /** Digits led by `ds[0]` are worth between `ds[0]` and `ds[0] + 1` times the power of their place. */
  lemma {:induction false} ValueBounds(b: nat, ds: seq<nat>)
    requires b >= 2 && Digits(b, ds) && ds != []
    ensures ds[0] * Pow(b, |ds| - 1) <= Value(b, ds) < (ds[0] + 1) * Pow(b, |ds| - 1)
  {
    if |ds| > 1 {
      var init, d, p := ds[..|ds| - 1], ds[|ds| - 1], Pow(b, |ds| - 2);
      ValueBounds(b, init);
      var v := Value(b, init);
      MulMonotone(ds[0] * p, v, b);
      MulMonotone(v, (ds[0] + 1) * p, b);
      Reassociate(ds[0], b, p);
      Reassociate(ds[0] + 1, b, p);
    } else {
      assert ds[..0] == [];
    }
  }

  lemma {:induction false} PowMonotone(b: nat, i: nat, j: nat)
    requires b > 0 && i <= j
    ensures Pow(b, i) <= Pow(b, j)
  {
    if i < j {
      PowMonotone(b, i, j - 1);
      MulMonotone(1, b, Pow(b, j - 1));
    }
  }

  /** A number below `x + 1` times one power of the base and not below another power is not shorter than that. */
  lemma NotShorter(b: nat, n: nat, x: nat, i: nat, k: nat)
    requires x < b && n < (x + 1) * Pow(b, i) && Pow(b, k) <= n
    ensures k <= i
  {
    if i < k {
      MulMonotone(x + 1, b, Pow(b, i));
      PowMonotone(b, i + 1, k);
    }
  }

  lemma SameScale(x: nat, d: nat, n: nat, p: nat)
    requires x * p <= n < (x + 1) * p && d * p <= n < (d + 1) * p
    ensures x == d
  {
    if x < d { MulMonotone(x + 1, d, p); }
    if d < x { MulMonotone(d + 1, x, p); }
  }

  /** A number between `d` and `d + 1` times a power of the base has that leading digit and one more digit than
      the exponent. */
  lemma LeadingDigit(b: nat, n: nat, d: nat, k: nat)
    requires b >= 2 && 0 < d < b && d * Pow(b, k) <= n < (d + 1) * Pow(b, k)
    ensures |ToDigits(b, n)| == k + 1 && ToDigits(b, n)[0] == d
  {
    PowPositive(b, k);
    MulMonotone(1, d, Pow(b, k));
    ToDigitsValue(b, n);
    LedBy(b, n, d, k, ToDigits(b, n));
  }

  lemma LedBy(b: nat, n: nat, d: nat, k: nat, ds: seq<nat>)
    requires b >= 2 && 0 < d < b && d * Pow(b, k) <= n < (d + 1) * Pow(b, k)
    requires Digits(b, ds) && Value(b, ds) == n && ds != [] && ds[0] > 0
    ensures |ds| == k + 1 && ds[0] == d
  {
    var i := |ds| - 1;
    ValueBounds(b, ds);
    MulMonotone(1, d, Pow(b, k));
    MulMonotone(1, ds[0], Pow(b, i));
    NotShorter(b, n, ds[0], i, k);
    NotShorter(b, n, d, k, i);
    SameScale(ds[0], d, n, Pow(b, k));
  }

  lemma Reassociate(d: nat, b: nat, p: nat)
    ensures d * (b * p) == (d * p) * b
  {
  }
}
