/**
 Positional number representations, most significant digit first.

 `Value` reads a digit sequence as a number, `ToDigits` writes a number with no
 leading zero.  The two are inverse on canonical digit sequences; everything that
 is proved about Base58 rests on that.
 */
module Digits {

  function Pow(b: nat, e: nat): nat {
    if e == 0 then 1 else b * Pow(b, e - 1)
  }

  function Value(digits: seq<int>, base: nat): int {
    if digits == [] then 0
    else Value(digits[..|digits| - 1], base) * base + digits[|digits| - 1]
  }

  ghost predicate InBase(digits: seq<int>, base: nat) {
    forall i :: 0 <= i < |digits| ==> 0 <= digits[i] < base
  }

  /** No leading zero. */
  predicate Canonical(digits: seq<int>) {
    digits == [] || digits[0] != 0
  }

  function ToDigits(n: nat, base: nat): seq<int>
    requires base >= 2
  {
    if n == 0 then [] else ToDigits(n / base, base) + [n % base]
  }

  function Zeros(n: nat): (r: seq<int>)
    ensures |r| == n && forall i :: 0 <= i < n ==> r[i] == 0
  {
    seq(n, _ => 0)
  }

  lemma MulMonotone(a: int, b: int, c: int)
    requires a <= b && 0 <= c
    ensures a * c <= b * c
  {
  }

  lemma ProductStrict(a: nat, b: nat, x: nat, y: nat)
    requires a < b && x <= y && 0 < y
    ensures a * x < b * y
  {
    MulMonotone(x, y, a);
    MulMonotone(a + 1, b, y);
    assert a * x <= a * y;
    assert (a + 1) * y == a * y + y;
  }

  lemma MulAssociates(x: int, y: int, z: int)
    ensures x * (y * z) == (x * y) * z
  {
  }

  // Powers

  lemma {:induction false} PowAdd(b: nat, m: nat, n: nat)
    ensures Pow(b, m + n) == Pow(b, m) * Pow(b, n)
  {
    if m > 0 {
      PowAdd(b, m - 1, n);
      MulAssociates(b, Pow(b, m - 1), Pow(b, n));
    }
  }

  lemma {:induction false} PowPow(b: nat, m: nat, n: nat)
    ensures Pow(b, m * n) == Pow(Pow(b, m), n)
  {
    if n > 0 {
      PowPow(b, m, n - 1);
      assert m * n == m + m * (n - 1);
      PowAdd(b, m, m * (n - 1));
    }
  }

  lemma {:induction false} PowPositive(b: nat, e: nat)
    requires b > 0
    ensures Pow(b, e) > 0
  {
    if e > 0 {
      PowPositive(b, e - 1);
    }
  }

  lemma {:induction false} PowMonotoneInBase(a: nat, b: nat, e: nat)
    requires a <= b
    ensures Pow(a, e) <= Pow(b, e)
  {
    if e > 0 {
      PowMonotoneInBase(a, b, e - 1);
      MulMonotone(a, b, Pow(a, e - 1));
      MulMonotone(Pow(a, e - 1), Pow(b, e - 1), b);
    }
  }

  lemma {:induction false} PowStrictInBase(a: nat, b: nat, e: nat)
    requires a < b && e > 0
    ensures Pow(a, e) < Pow(b, e)
  {
    PowMonotoneInBase(a, b, e - 1);
    PowPositive(b, e - 1);
    ProductStrict(a, b, Pow(a, e - 1), Pow(b, e - 1));
  }

  lemma {:induction false} PowMonotoneInExponent(b: nat, m: nat, n: nat)
    requires b > 0 && m <= n
    ensures Pow(b, m) <= Pow(b, n)
    decreases n
  {
    if m < n {
      PowMonotoneInExponent(b, m, n - 1);
      MulMonotone(1, b, Pow(b, n - 1));
    }
  }

  /**
   A rational bound p/q on the logarithm of `a` to base `b` is enough to size a
   buffer: s digits of base `b` hold every n-digit number of base `a` as soon as
   s / n >= p / q.
   */
  lemma {:induction false} SizeSuffices(a: nat, b: nat, p: nat, q: nat, n: nat, s: nat)
    requires b > 0 && q > 0
    requires Pow(a, q) <= Pow(b, p)
    requires p * n <= q * s
    ensures Pow(a, n) <= Pow(b, s)
  {
    PowPow(a, n, q);
    PowPow(b, s, q);
    PowMonotoneInExponent(b, p * n, s * q);
    PowPow(b, p, n);
    PowPow(a, q, n);
    PowMonotoneInBase(Pow(a, q), Pow(b, p), n);
    assert n * q == q * n;
    if Pow(a, n) > Pow(b, s) {
      PowStrictInBase(Pow(b, s), Pow(a, n), q);
    }
  }

  // Reading digits

  lemma Shift(v: int, p: int, u: int, base: int)
    ensures (v * p + u) * base == v * (base * p) + u * base
  {
  }

  lemma {:induction false} ValueConcat(s: seq<int>, t: seq<int>, base: nat)
    ensures Value(s + t, base) == Value(s, base) * Pow(base, |t|) + Value(t, base)
  {
    if t == [] {
      assert s + t == s;
    } else {
      var t' := t[..|t| - 1];
      assert (s + t)[..|s + t| - 1] == s + t';
      ValueConcat(s, t', base);
      Shift(Value(s, base), Pow(base, |t'|), Value(t', base), base);
    }
  }

  lemma AppendBound(v: nat, d: nat, base: nat, p: nat)
    requires v < p && d < base
    ensures 0 <= v * base + d < base * p
  {
    MulMonotone(v, p - 1, base);
  }

  lemma {:induction false} ValueBound(s: seq<int>, base: nat)
    requires InBase(s, base)
    ensures 0 <= Value(s, base) < Pow(base, |s|)
  {
    if s != [] {
      var s' := s[..|s| - 1];
      ValueBound(s', base);
      AppendBound(Value(s', base), s[|s| - 1], base, Pow(base, |s'|));
    }
  }

  lemma ValueOfSingle(x: int, base: nat)
    ensures Value([x], base) == x
  {
    assert [x][..0] == [];
  }

  lemma {:induction false} ValueAtLeast(s: seq<int>, base: nat)
    requires InBase(s, base) && s != [] && s[0] != 0
    ensures Value(s, base) >= Pow(base, |s| - 1)
  {
    assert s == [s[0]] + s[1..];
    ValueConcat([s[0]], s[1..], base);
    ValueOfSingle(s[0], base);
    ValueBound(s[1..], base);
    MulMonotone(1, s[0], Pow(base, |s| - 1));
  }

  lemma {:induction false} ValueOfZeros(n: nat, base: nat)
    ensures Value(Zeros(n), base) == 0
  {
    if n > 0 {
      assert Zeros(n)[..n - 1] == Zeros(n - 1);
      ValueOfZeros(n - 1, base);
    }
  }

  lemma LeadingZerosDoNotCount(n: nat, s: seq<int>, base: nat)
    ensures Value(Zeros(n) + s, base) == Value(s, base)
  {
    ValueConcat(Zeros(n), s, base);
    ValueOfZeros(n, base);
  }

  // Writing digits

  lemma DivMod(n: nat, base: nat)
    requires base >= 2
    ensures n == (n / base) * base + n % base
    ensures n > 0 ==> n / base < n
    ensures n / base == 0 ==> n % base == n
  {
  }

  lemma {:induction false} ValueOfToDigits(n: nat, base: nat)
    requires base >= 2
    ensures Value(ToDigits(n, base), base) == n
  {
    if n > 0 {
      DivMod(n, base);
      ValueOfToDigits(n / base, base);
      var s := ToDigits(n, base);
      assert s[..|s| - 1] == ToDigits(n / base, base);
    }
  }

  lemma InBaseAppend(s: seq<int>, d: int, base: nat)
    requires InBase(s, base) && 0 <= d < base
    ensures InBase(s + [d], base)
  {
  }

  lemma {:induction false} ToDigitsCorrect(n: nat, base: nat)
    requires base >= 2
    ensures Value(ToDigits(n, base), base) == n
    ensures InBase(ToDigits(n, base), base)
    ensures Canonical(ToDigits(n, base))
  {
    ValueOfToDigits(n, base);
    if n > 0 {
      DivMod(n, base);
      ToDigitsCorrect(n / base, base);
      InBaseAppend(ToDigits(n / base, base), n % base, base);
      assert n / base > 0 ==> ToDigits(n / base, base) != [];
    }
  }

  /** A canonical digit sequence is the only one `ToDigits` can produce for its value. */
  lemma {:induction false} ToDigitsOfValue(s: seq<int>, base: nat)
    requires base >= 2 && InBase(s, base) && Canonical(s)
    ensures Value(s, base) >= 0 && ToDigits(Value(s, base), base) == s
  {
    ValueBound(s, base);
    if s != [] {
      var s', d := s[..|s| - 1], s[|s| - 1];
      ValueAtLeast(s, base);
      PowPositive(base, |s| - 1);
      ToDigitsOfValue(s', base);
      DivModUnique(Value(s', base), d, base);
      assert s == s' + [d];
    }
  }

  lemma DivModUnique(q: nat, r: nat, base: nat)
    requires 0 <= r < base
    ensures (q * base + r) / base == q && (q * base + r) % base == r
  {
    var n := q * base + r;
    var q', r' := n / base, n % base;
    assert n == q' * base + r';
    if q' > q {
      MulMonotone(q + 1, q', base);
    } else if q' < q {
      MulMonotone(q' + 1, q, base);
    }
  }

  /** The number of digits of n, bracketed by powers of the base. */
  lemma {:induction false} DigitCount(n: nat, base: nat, k: nat)
    requires base >= 2
    ensures n < Pow(base, k) <==> |ToDigits(n, base)| <= k
  {
    ToDigitsCorrect(n, base);
    var s := ToDigits(n, base);
    if |s| <= k {
      ValueBound(s, base);
      PowMonotoneInExponent(base, |s|, k);
    } else {
      ValueAtLeast(s, base);
      PowMonotoneInExponent(base, k, |s| - 1);
    }
  }

  // Changing base

  function LeadingZeros(digits: seq<int>): (n: nat)
    ensures n <= |digits|
    ensures forall i :: 0 <= i < n ==> digits[i] == 0
    ensures n < |digits| ==> digits[n] != 0
  {
    if digits == [] || digits[0] != 0 then 0 else 1 + LeadingZeros(digits[1..])
  }

  /** The same number in another base, with as many leading zeros as before. */
  function Convert(digits: seq<int>, from: nat, to: nat): seq<int>
    requires InBase(digits, from) && to >= 2
  {
    ValueBound(digits, from);
    Zeros(LeadingZeros(digits)) + ToDigits(Value(digits, from), to)
  }

  lemma LeadingZerosUnique(digits: seq<int>, n: nat)
    requires n <= |digits|
    requires forall i :: 0 <= i < n ==> digits[i] == 0
    requires n < |digits| ==> digits[n] != 0
    ensures LeadingZeros(digits) == n
  {
  }

  /** Leading zeros and value determine a digit sequence. */
  lemma SplitLeadingZeros(digits: seq<int>, base: nat)
    requires base >= 2 && InBase(digits, base)
    ensures Value(digits, base) >= 0
    ensures digits == Zeros(LeadingZeros(digits)) + ToDigits(Value(digits, base), base)
  {
    var n := LeadingZeros(digits);
    assert digits == Zeros(n) + digits[n..];
    LeadingZerosDoNotCount(n, digits[n..], base);
    ToDigitsOfValue(digits[n..], base);
  }

  lemma ConvertKeeps(digits: seq<int>, from: nat, to: nat)
    requires InBase(digits, from) && to >= 2
    ensures var r := Convert(digits, from, to);
            && InBase(r, to)
            && LeadingZeros(r) == LeadingZeros(digits)
            && Value(r, to) == Value(digits, from)
  {
    ValueBound(digits, from);
    var n, v := LeadingZeros(digits), Value(digits, from);
    ToDigitsCorrect(v, to);
    LeadingZerosUnique(Zeros(n) + ToDigits(v, to), n);
    LeadingZerosDoNotCount(n, ToDigits(v, to), to);
  }

  /** Changing base and back changes nothing. */
  lemma ConvertRoundTrip(digits: seq<int>, from: nat, to: nat)
    requires InBase(digits, from) && from >= 2 && to >= 2
    ensures InBase(Convert(digits, from, to), to)
    ensures Convert(Convert(digits, from, to), to, from) == digits
  {
    ConvertKeeps(digits, from, to);
    SplitLeadingZeros(digits, from);
  }
}
