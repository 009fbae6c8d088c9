/**
  The decimal amount printers: the Rust one for satoshis, and the pages' ones for satoshis, sun and wei. Each
  takes the amount the request carries as a decimal string; here it is that number.
 */
module Amounts {
  import opened Positional

  // ---------- Printing ----------

  /** The digits of `n`, padded on the left with zeros to at least `w` digits. */
  function Padded(n: nat, w: nat): (ds: seq<nat>)
    ensures Digits(10, ds) && |ds| >= w
  {
    ToDigitsValue(10, n);
    var ds := ToDigits(10, n);
    ZerosShape(if |ds| < w then w - |ds| else 0);
    Zeros(if |ds| < w then w - |ds| else 0) + ds
  }

  function Chars(ds: seq<nat>): (s: string)
    requires Digits(10, ds)
    ensures |s| == |ds|
  {
    seq(|ds|, i requires 0 <= i < |ds| => (48 + ds[i]) as char)
  }

  /** A number printed in decimal, with a lone "0" for zero, then padded on the left as `{:0w}` and `padStart` do. */
  function Decimal(n: nat, w: nat): string
    requires w >= 1
  {
    Chars(Padded(n, w))
  }

  function TrimEnd(s: string, c: char): (t: string)
    ensures |t| <= |s|
  {
    if s != "" && s[|s| - 1] == c then TrimEnd(s[..|s| - 1], c) else s
  }

  function TrimEnds(whole: string, frac: string): string {
    TrimEnd(TrimEnd(whole + "." + frac, '0'), '.')
  }

  /** `Sats::to_btc_string`. */
  function ToBtcString(n: nat): string {
    PowPositive(10, 8);
    TrimEnds(Decimal(n / Pow(10, 8), 1), Decimal(n % Pow(10, 8), 8))
  }

  /** What the three pages share: pad to one digit more than the unit has decimals, cut, trim. */
  function Format(decimals: nat, n: nat): string {
    var s := Decimal(n, decimals + 1);
    var whole := s[..|s| - decimals];
    var frac := TrimEnd(s[|s| - decimals..], '0');
    if frac != "" then whole + "." + frac else whole
  }

  /** `formatSats`, without its unit. */
  function FormatSats(n: nat): string {
    Format(8, n)
  }

  /** `formatSun`. */
  function FormatSun(n: nat): string {
    if n == 0 then "0" else Format(6, n)
  }

  /** `formatEther`. */
  function FormatEther(n: nat): string {
    if n == 0 then "0" else Format(18, n)
  }

  // ---------- What a printed amount denotes ----------

  /** The position of the decimal point, or the length when there is none. */
  function PointAt(s: string): (k: nat)
    ensures k <= |s| && (k < |s| ==> s[k] == '.')
    ensures forall i :: 0 <= i < k ==> s[i] != '.'
  {
    if s == "" || s[0] == '.' then 0 else 1 + PointAt(s[1..])
  }

  function DigitValue(c: char): nat {
    if '0' <= c <= '9' then c as int - 48 else 0
  }

  function Numeral(s: string): nat {
    Value(10, seq(|s|, i requires 0 <= i < |s| => DigitValue(s[i])))
  }

  function Whole(s: string): string {
    s[..PointAt(s)]
  }

  function Fraction(s: string): string {
    if PointAt(s) < |s| then s[PointAt(s) + 1..] else ""
  }

  /** The number a decimal string writes, read by place value. */
  function Denoted(s: string): real {
    PowPositive(10, |Fraction(s)|);
    Numeral(Whole(s)) as real + Numeral(Fraction(s)) as real / Pow(10, |Fraction(s)|) as real
  }

  /** A string of the digits '0' to '9'. */
  predicate AllDigits(s: string) {
    forall i :: 0 <= i < |s| ==> '0' <= s[i] <= '9'
  }

  // ---------- Cutting digits ----------

  lemma DivideTwice(n: nat, p: nat)
    requires p > 0
    ensures n / (10 * p) == (n / 10) / p && n % (10 * p) == ((n / 10) % p) * 10 + n % 10
  {
    var q, r := (n / 10) / p, (n / 10) % p * 10 + n % 10;
    assert (n / 10) % p <= p - 1;
    assert r < 10 * p;
    assert n == (q * p + (n / 10) % p) * 10 + n % 10;
    assert n == q * (10 * p) + r;
    QuotientRemainder(10 * p, q, r);
  }

  lemma PaddedStep(n: nat, w: nat)
    requires w > 0
    ensures Padded(n, w) == Padded(n / 10, w - 1) + [n % 10]
  {
    if n == 0 {
      assert Zeros(w) == Zeros(w - 1) + [0];
    }
  }

  /** Cutting the last `d` digits off is dividing by 10 to the `d`. */
  lemma {:induction false} CutDigits(n: nat, w: nat, d: nat)
    ensures Pow(10, d) > 0
    ensures Padded(n, w + d) == Padded(n / Pow(10, d), w) + Padded(n % Pow(10, d), d)
    ensures |Padded(n % Pow(10, d), d)| == d
  {
    PowPositive(10, d);
    if d > 0 {
      var p := Pow(10, d - 1);
      PowPositive(10, d - 1);
      DivideTwice(n, p);
      CutDigits(n / 10, w, d - 1);
      PaddedStep(n, w + d);
      QuotientRemainder(10, (n / 10) % p, n % 10);
      PaddedStep(n % Pow(10, d), d);
      assert Padded(n % Pow(10, d), d) == Padded((n / 10) % p, d - 1) + [n % 10];
    }
  }

  lemma CharsConcat(xs: seq<nat>, ys: seq<nat>)
    requires Digits(10, xs) && Digits(10, ys)
    ensures Digits(10, xs + ys) && Chars(xs + ys) == Chars(xs) + Chars(ys)
  {
  }

  lemma CharsAreDigits(ds: seq<nat>)
    requires Digits(10, ds)
    ensures AllDigits(Chars(ds)) && Numeral(Chars(ds)) == Value(10, ds)
  {
    var s := Chars(ds);
    assert seq(|s|, i requires 0 <= i < |s| => DigitValue(s[i])) == ds;
  }

  lemma SliceDigits(xs: seq<nat>, ys: seq<nat>)
    requires Digits(10, xs) && Digits(10, ys)
    ensures Digits(10, xs + ys)
    ensures var s := Chars(xs + ys); s[..|s| - |ys|] == Chars(xs) && s[|s| - |ys|..] == Chars(ys)
  {
    CharsConcat(xs, ys);
  }

  /** The digits of `n` are those of `q` and then the `d` digits of `r`. */
  predicate Cut(n: nat, d: nat, q: nat, r: nat) {
    Padded(n, d + 1) == Padded(q, 1) + Padded(r, d) && |Padded(r, d)| == d
  }

  lemma DivideCuts(n: nat, d: nat, q: nat, r: nat)
    requires Pow(10, d) > 0 && q == n / Pow(10, d) && r == n % Pow(10, d)
    ensures Cut(n, d, q, r)
  {
    CutDigits(n, 1, d);
  }

  /** The page's two slices are the whole part and the padded rest. */
  lemma Slices(d: nat, n: nat, q: nat, r: nat)
    requires Cut(n, d, q, r)
    ensures var s := Decimal(n, d + 1);
      s[..|s| - d] == Decimal(q, 1) && s[|s| - d..] == Chars(Padded(r, d))
  {
    SliceDigits(Padded(q, 1), Padded(r, d));
  }

  // ---------- The two satoshi printers agree ----------

  lemma {:induction false} TrimStops(w: string, f: string)
    ensures TrimEnd(w + "." + f, '0') == w + "." + TrimEnd(f, '0')
  {
    var s := w + "." + f;
    if f != "" {
      assert s[..|s| - 1] == w + "." + f[..|f| - 1];
      TrimStops(w, f[..|f| - 1]);
    } else {
      assert s == w + ".";
    }
  }

  lemma {:induction false} TrimmedShape(s: string)
    ensures var t := TrimEnd(s, '0');
      && t == s[..|t|] && (t != "" ==> t[|t| - 1] != '0')
      && forall i :: |t| <= i < |s| ==> s[i] == '0'
  {
    if s != "" && s[|s| - 1] == '0' { TrimmedShape(s[..|s| - 1]); }
  }

  /** Trimming a point that ends the string, or nothing. */
  lemma TrimPoint(w: string, t: string)
    requires w != "" && AllDigits(w) && AllDigits(t)
    ensures TrimEnd(w + "." + t, '.') == if t != "" then w + "." + t else w
  {
    var s := w + "." + t;
    if t == "" {
      assert s[..|s| - 1] == w;
    } else {
      assert s[|s| - 1] == t[|t| - 1];
    }
  }

  /** Trimming zeros and then the point is trimming the fraction and leaving an empty one out. */
  lemma TrimEndsJoins(w: string, f: string)
    requires w != "" && AllDigits(w) && AllDigits(f)
    ensures TrimEnds(w, f) == if TrimEnd(f, '0') != "" then w + "." + TrimEnd(f, '0') else w
  {
    TrimStops(w, f);
    TrimmedShape(f);
    TrimPoint(w, TrimEnd(f, '0'));
  }

  lemma PrintersAgreeOn(n: nat, q: nat, r: nat)
    requires Cut(n, 8, q, r)
    ensures TrimEnds(Decimal(q, 1), Decimal(r, 8)) == Format(8, n)
  {
    Slices(8, n, q, r);
    CharsAreDigits(Padded(q, 1));
    CharsAreDigits(Padded(r, 8));
    TrimEndsJoins(Decimal(q, 1), Decimal(r, 8));
  }

  lemma PrintersAgree(n: nat)
    ensures ToBtcString(n) == FormatSats(n)
  {
    PowPositive(10, 8);
    DivideCuts(n, 8, n / Pow(10, 8), n % Pow(10, 8));
    PrintersAgreeOn(n, n / Pow(10, 8), n % Pow(10, 8));
  }

  // ---------- Printed amounts are exact ----------

  lemma {:induction false} ValueThenZeros(ds: seq<nat>, z: nat)
    ensures Value(10, ds + Zeros(z)) == Value(10, ds) * Pow(10, z)
  {
    var all := ds + Zeros(z);
    if z == 0 {
      assert all == ds;
    } else {
      assert all[..|all| - 1] == ds + Zeros(z - 1);
      ValueThenZeros(ds, z - 1);
      Reassociate(Value(10, ds), 10, Pow(10, z - 1));
    }
  }

  lemma {:induction false} PowSplit(k: nat, z: nat)
    ensures Pow(10, k + z) == Pow(10, k) * Pow(10, z)
  {
    if k > 0 {
      PowSplit(k - 1, z);
      TimesTen(Pow(10, k - 1), Pow(10, z));
    }
  }

  lemma TimesTen(x: nat, y: nat)
    ensures 10 * (x * y) == (10 * x) * y
  {
  }

  lemma PaddedValue(n: nat, w: nat)
    ensures Value(10, Padded(n, w)) == n
  {
    var ds := ToDigits(10, n);
    ToDigitsValue(10, n);
    PrependZeros(10, if |ds| < w then w - |ds| else 0, ds);
  }

  /** Digits that end in zeros, cut before the zeros. */
  lemma CutZeros(ds: seq<nat>, k: nat)
    requires Digits(10, ds) && k <= |ds| && forall i :: k <= i < |ds| ==> ds[i] == 0
    ensures Digits(10, ds[..k]) && Value(10, ds[..k]) * Pow(10, |ds| - k) == Value(10, ds)
  {
    ZerosShape(|ds| - k);
    assert ds == ds[..k] + Zeros(|ds| - k);
    ValueThenZeros(ds[..k], |ds| - k);
  }

  lemma TrimmedDigits(ds: seq<nat>)
    requires Digits(10, ds)
    ensures var k := |TrimEnd(Chars(ds), '0')|;
      && k <= |ds| && TrimEnd(Chars(ds), '0') == Chars(ds[..k])
      && forall i :: k <= i < |ds| ==> ds[i] == 0
  {
    var s := Chars(ds);
    TrimmedShape(s);
    forall i | |TrimEnd(s, '0')| <= i < |ds| ensures ds[i] == 0 {
      assert s[i] == '0';
    }
  }

  /** A trimmed fraction times the power of ten for the zeros it lost is the whole fraction. */
  lemma TrimmedValue(ds: seq<nat>)
    requires Digits(10, ds)
    ensures var t := TrimEnd(Chars(ds), '0');
      AllDigits(t) && |t| <= |ds| && Numeral(t) * Pow(10, |ds| - |t|) == Value(10, ds)
  {
    var k := |TrimEnd(Chars(ds), '0')|;
    TrimmedDigits(ds);
    CutZeros(ds, k);
    CharsAreDigits(ds[..k]);
  }

  lemma QuotientAsReal(q: nat, r: nat, v: nat, k: nat, z: nat)
    requires k > 0 && z > 0 && v * z == r
    ensures q as real + v as real / k as real == (q * (k * z) + r) as real / (k * z) as real
  {
    var kr, zr, vr := k as real, z as real, v as real;
    assert (k * z) as real == kr * zr && (v * z) as real == vr * zr;
    assert (q * (k * z)) as real == q as real * (kr * zr);
    CancelReal(q as real, vr, kr, zr);
  }

  lemma CancelReal(q: real, v: real, k: real, z: real)
    requires k > 0.0 && z > 0.0
    ensures k * z != 0.0 && q + v / k == (q * (k * z) + v * z) / (k * z)
  {
    var x := v / k;
    assert v == x * k;
    assert v * z == x * (k * z);
    assert q * (k * z) + v * z == (q + x) * (k * z);
  }

  /** A whole part and a fraction without a point between them are found again by reading. */
  lemma ReadBack(w: string, t: string)
    requires AllDigits(w) && AllDigits(t)
    ensures var s := if t != "" then w + "." + t else w; Whole(s) == w && Fraction(s) == t
  {
    var s := if t != "" then w + "." + t else w;
    assert forall i :: 0 <= i < |w| ==> s[i] == w[i];
    assert t != "" ==> s[|w|] == '.';
    assert PointAt(s) >= |w|;
  }

  /** A printed amount, taken apart. */
  lemma Parts(d: nat, n: nat, q: nat, r: nat)
    requires Cut(n, d, q, r)
    ensures Whole(Format(d, n)) == Decimal(q, 1)
    ensures Fraction(Format(d, n)) == TrimEnd(Chars(Padded(r, d)), '0')
    ensures Fraction(Format(d, n)) == "" ==> '.' !in Format(d, n)
  {
    var t := TrimEnd(Chars(Padded(r, d)), '0');
    Slices(d, n, q, r);
    CharsAreDigits(Padded(q, 1));
    TrimmedValue(Padded(r, d));
    ReadBack(Decimal(q, 1), t);
  }

  lemma FractionValue(r: nat, d: nat, t: string)
    requires |Padded(r, d)| == d && t == TrimEnd(Chars(Padded(r, d)), '0')
    ensures |t| <= d && Numeral(t) * Pow(10, d - |t|) == r
  {
    PaddedValue(r, d);
    TrimmedValue(Padded(r, d));
  }

  lemma DenotedParts(s: string, d: nat, n: nat, q: nat, r: nat)
    requires |Padded(r, d)| == d && n == q * Pow(10, d) + r
    requires Whole(s) == Decimal(q, 1) && Fraction(s) == TrimEnd(Chars(Padded(r, d)), '0')
    ensures Pow(10, d) > 0 && Denoted(s) == n as real / Pow(10, d) as real
  {
    CharsAreDigits(Padded(q, 1));
    PaddedValue(q, 1);
    FractionValue(r, d, Fraction(s));
    PowPositive(10, |Fraction(s)|);
    PowPositive(10, d - |Fraction(s)|);
    DenotedSum(s, q, r, d, Pow(10, |Fraction(s)|), Pow(10, d - |Fraction(s)|));
  }

  lemma DenotedSum(s: string, q: nat, r: nat, d: nat, k: nat, z: nat)
    requires Numeral(Whole(s)) == q && |Fraction(s)| <= d
    requires k == Pow(10, |Fraction(s)|) > 0 && z == Pow(10, d - |Fraction(s)|) > 0 && Numeral(Fraction(s)) * z == r
    ensures Pow(10, d) > 0 && Denoted(s) == (q * Pow(10, d) + r) as real / Pow(10, d) as real
  {
    PowSplit(|Fraction(s)|, d - |Fraction(s)|);
    PowPositive(10, d);
    QuotientAsReal(q, r, Numeral(Fraction(s)), k, z);
  }

  lemma DivMod(n: nat, p: nat) returns (q: nat, r: nat)
    requires p > 0
    ensures q == n / p && r == n % p && n == q * p + r
  {
    q, r := n / p, n % p;
  }

  /** A printed amount denotes exactly that many units. */
  lemma PrintsExactly(d: nat, n: nat)
    ensures Pow(10, d) > 0 && Denoted(Format(d, n)) == n as real / Pow(10, d) as real
  {
    PowPositive(10, d);
    var q, r := DivMod(n, Pow(10, d));
    DivideCuts(n, d, q, r);
    PrintsParts(d, n, q, r);
  }

  lemma PrintsParts(d: nat, n: nat, q: nat, r: nat)
    requires Cut(n, d, q, r) && n == q * Pow(10, d) + r && Pow(10, d) > 0
    ensures Denoted(Format(d, n)) == n as real / Pow(10, d) as real
  {
    Parts(d, n, q, r);
    DenotedParts(Format(d, n), d, n, q, r);
  }

  lemma LastOfFraction(s: string, t: string)
    requires t == Fraction(s) && (t != "" ==> t[|t| - 1] != '0')
    ensures if '.' in s then s[|s| - 1] != '0' else s == Whole(s)
  {
  }

  /** It is also in its one shortest form: the whole part without a needless leading zero and, only if there is a
      fraction, a point and a fraction that does not end in '0'. */
  lemma PrintsShortest(d: nat, n: nat, q: nat, r: nat)
    requires Pow(10, d) > 0 && q == n / Pow(10, d) && r == n % Pow(10, d)
    ensures var s := Format(d, n);
      && IsPlain(Whole(s)) && Numeral(Whole(s)) == q && AllDigits(Fraction(s)) && |Fraction(s)| <= d
      && (if '.' in s then Fraction(s) != "" && s[|s| - 1] != '0' else s == Whole(s))
  {
    DivideCuts(n, d, q, r);
    ShortestParts(d, n, q, r);
    DecimalIsPlain(q);
  }

  /** A number as it is usually written: digits, of which the first is no zero unless it is the only one. */
  predicate IsPlain(s: string) {
    s != "" && AllDigits(s) && (|s| > 1 ==> s[0] != '0')
  }

  lemma DecimalIsPlain(q: nat)
    ensures IsPlain(Decimal(q, 1)) && Numeral(Decimal(q, 1)) == q
  {
    ToDigitsValue(10, q);
    PaddedValue(q, 1);
    CharsAreDigits(Padded(q, 1));
    if q > 0 {
      assert Padded(q, 1) == ToDigits(10, q);
    } else {
      assert Padded(q, 1) == [0];
    }
  }

  lemma ShortestParts(d: nat, n: nat, q: nat, r: nat)
    requires Cut(n, d, q, r)
    ensures var s := Format(d, n);
      && Whole(s) == Decimal(q, 1) && AllDigits(Fraction(s)) && |Fraction(s)| <= d
      && (if '.' in s then Fraction(s) != "" && s[|s| - 1] != '0' else s == Whole(s))
  {
    Parts(d, n, q, r);
    ShortestFraction(Format(d, n), Padded(r, d));
  }

  lemma ShortestFraction(s: string, ds: seq<nat>)
    requires Digits(10, ds) && Fraction(s) == TrimEnd(Chars(ds), '0') && (Fraction(s) == "" ==> '.' !in s)
    ensures AllDigits(Fraction(s)) && |Fraction(s)| <= |ds|
    ensures if '.' in s then Fraction(s) != "" && s[|s| - 1] != '0' else s == Whole(s)
  {
    TrimmedValue(ds);
    TrimmedShape(Chars(ds));
    LastOfFraction(s, Fraction(s));
  }

  lemma SamePower(m: nat, n: nat, p: nat)
    requires p > 0 && m as real / p as real == n as real / p as real
    ensures m == n
  {
    assert m as real == (m as real / p as real) * p as real;
    assert n as real == (n as real / p as real) * p as real;
  }

  lemma DistinctAmountsPrintDifferently(d: nat, m: nat, n: nat)
    ensures Format(d, m) == Format(d, n) ==> m == n
  {
    PrintsExactly(d, m);
    PrintsExactly(d, n);
    if Format(d, m) == Format(d, n) { SamePower(m, n, Pow(10, d)); }
  }

  /** The pages' special case for zero prints what the general case would. */
  lemma ZeroIsNotSpecial(n: nat)
    ensures FormatSun(n) == Format(6, n) && FormatEther(n) == Format(18, n)
  {
    if n == 0 {
      ZeroPrints(6);
      ZeroPrints(18);
    }
  }

  lemma ZeroPrints(d: nat)
    ensures Format(d, 0) == "0"
  {
    var s := Decimal(0, d + 1);
    assert Padded(0, d + 1) == Zeros(d + 1);
    ZerosShape(d + 1);
    TrimmedShape(s[|s| - d..]);
    assert s[..|s| - d] == "0";
  }
}
