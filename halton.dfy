/**
  The Halton jitter table of the temporal anti-aliasing pass: the radical
  inverse of the indices 1..36 in bases 2 and 3, computed once when the
  program starts and cycled through by the render loop.
*/
module Halton {

  /** Length of the jitter table (HALTON_SAMPLES). */
  const HaltonSamples: nat := 36

  // ----- Integer facts -----

  lemma DivMod(n: nat, b: nat)
    requires b >= 2
    ensures n == b * (n / b) + n % b
    ensures 0 <= n % b < b
    ensures 0 <= n / b <= n
    ensures n > 0 ==> n / b < n
  {
  }

  lemma MulMonotone(a: nat, b: nat, c: nat)
    requires a <= b
    ensures a * c <= b * c
  {
  }

  /** Putting a digit d < b in front of a numerator m < p stays below b * p. */
  lemma ShiftBelow(d: nat, m: nat, p: nat, b: nat)
    requires d < b && m < p
    ensures d * p + m < b * p
    ensures d > 0 ==> d * p + m > 0
  {
    MulMonotone(d + 1, b, p);
    if d > 0 {
      MulMonotone(1, d, p);
    }
  }

  // ----- The radical inverse as a fraction -----

  /** base raised to the number of base-`base` digits of n: the denominator
      of the radical inverse. */
  function Den(n: nat, base: nat): (p: nat)
    requires base >= 2
    ensures p >= 1
    decreases n
  {
    if n == 0 then 1
    else
      DivMod(n, base);
      var p := Den(n / base, base);
      MulMonotone(1, base, p);
      base * p
  }

  /** The base-`base` digits of n in reverse order, read as a number (the
      lowest digit of n becomes the highest): the numerator of the radical
      inverse. */
  function Num(n: nat, base: nat): (m: nat)
    requires base >= 2
    ensures m < Den(n, base)
    ensures n > 0 ==> m > 0
    decreases n
  {
    if n == 0 then 0
    else
      DivMod(n, base);
      var q := n / base;
      ShiftBelow(n % base, Num(q, base), Den(q, base), base);
      (n % base) * Den(q, base) + Num(q, base)
  }

  lemma FractionBelowOne(m: nat, p: nat)
    requires m < p
    ensures 0.0 <= m as real / p as real < 1.0
    ensures m > 0 ==> m as real / p as real > 0.0
  {
  }

  /** The base-`base` radical inverse of `index`: the digits of `index`
      mirrored behind the radix point, Num / Den. */
  function RadicalInverse(index: nat, base: nat): (r: real)
    requires base >= 2
    ensures 0.0 <= r < 1.0
    ensures index > 0 ==> r > 0.0
  {
    FractionBelowOne(Num(index, base), Den(index, base));
    Num(index, base) as real / Den(index, base) as real
  }

  // ----- The loop of createHaltonSequence -----

  /** One pass of the loop on fractions: f = 1 / p and r = a / p become
      1 / (p * b) and (a * b + d) / (p * b). */
  lemma FractionStep(f: real, r: real, a: nat, p: nat, d: nat, b: nat, f2: real, r2: real)
    requires p >= 1 && b >= 1
    requires f == 1.0 / p as real && r == a as real / p as real
    requires f2 == f / b as real && r2 == r + f2 * d as real
    ensures f2 == 1.0 / (p * b) as real && r2 == (a * b + d) as real / (p * b) as real
  {
    var P, B := p as real, b as real;
    assert (p * b) as real == P * B;
    assert ((a * b + d) as real) == a as real * B + d as real;
    assert f2 == 1.0 / (P * B);
    assert r2 == (a as real * B + d as real) / (P * B);
  }

  lemma Regroup(a: int, p: int, b: int, d: int, dq: int, nq: int)
    ensures a * (b * dq) + (d * dq + nq) == (a * b + d) * dq + nq
    ensures p * (b * dq) == (p * b) * dq
  {
  }

  lemma NumDenStep(n: nat, base: nat)
    requires base >= 2 && n > 0
    ensures Num(n, base) == (n % base) * Den(n / base, base) + Num(n / base, base)
    ensures Den(n, base) == base * Den(n / base, base)
  {
  }

  /** The digits of `index` consumed so far, above those still in `current`,
      make up the numerator `a` and the denominator `p`. */
  ghost predicate Consumed(index: nat, base: nat, current: nat, a: nat, p: nat)
    requires base >= 2
  {
    Num(index, base) == a * Den(current, base) + Num(current, base) &&
    Den(index, base) == p * Den(current, base)
  }

  lemma ConsumeDigit(index: nat, base: nat, current: nat, a: nat, p: nat)
    requires base >= 2 && current > 0 && Consumed(index, base, current, a, p)
    ensures Consumed(index, base, current / base, a * base + current % base, p * base)
  {
    DivMod(current, base);
    NumDenStep(current, base);
    Regroup(a, p, base, current % base, Den(current / base, base), Num(current / base, base));
  }

  /** The state of the loop of createHaltonSequence after some passes:
      f = 1 / p and r = a / p, where a and p are the numerator and the
      denominator of the digits consumed so far. */
  ghost predicate Loop(index: nat, base: nat, first: bool, current: nat, f: real, r: real, a: nat, p: nat)
    requires base >= 2
  {
    && p >= 1
    && f == 1.0 / p as real && r == a as real / p as real
    && (first ==> current == index && a == 0 && p == 1)
    && (index == 0 ==> a == 0 && current == 0)
    && (index > 0 ==> Consumed(index, base, current, a, p))
  }

  lemma LoopStart(index: nat, base: nat)
    requires base >= 2
    ensures Loop(index, base, true, index, 1.0, 0.0, 0, 1)
  {
  }

  /** One pass: f = f / base; r = r + f * (current % base); current = floor(current / base). */
  lemma LoopStep(index: nat, base: nat, first: bool, current: nat, f: real, r: real, a: nat, p: nat,
                 current2: nat, f2: real, r2: real, a2: nat, p2: nat)
    requires base >= 2 && Loop(index, base, first, current, f, r, a, p)
    requires first || current > 0
    requires f2 == f / base as real && r2 == r + f2 * (current % base) as real
    requires current2 == current / base && a2 == a * base + current % base && p2 == p * base
    ensures Loop(index, base, false, current2, f2, r2, a2, p2)
  {
    DivMod(current, base);
    if index > 0 {
      ConsumeDigit(index, base, current, a, p);
    }
    MulMonotone(1, base, p);
    FractionStep(f, r, a, p, current % base, base, f2, r2);
  }

  lemma LoopDone(index: nat, base: nat, current: nat, f: real, r: real, a: nat, p: nat)
    requires base >= 2 && Loop(index, base, false, current, f, r, a, p) && current == 0
    ensures r == RadicalInverse(index, base)
  {
  }

  /** createHaltonSequence: the JavaScript numbers are modelled as exact reals. */
  method CreateHaltonSequence(index: nat, base: nat) returns (r: real)
    requires base >= 2
    ensures r == RadicalInverse(index, base)
    ensures 0.0 <= r < 1.0
  {
    var f := 1.0;
    r := 0.0;
    var current: nat := index;
    var first := true;
    ghost var a: nat := 0;
    ghost var p: nat := 1;
    LoopStart(index, base);
    while first || current > 0
      invariant Loop(index, base, first, current, f, r, a, p)
      decreases current, if first then 1 else 0
    {
      DivMod(current, base);
      ghost var first0, current0, f0, r0, a0, p0 := first, current, f, r, a, p;
      f := f / base as real;
      r := r + f * (current % base) as real;
      a, p := a * base + current % base, p * base;
      current := current / base;
      first := false;
      LoopStep(index, base, first0, current0, f0, r0, a0, p0, current, f, r, a, p);
    }
    LoopDone(index, base, current, f, r, a, p);
  }

  /** Entry i of a table. The defining property of the Halton table below
      is stated on this name, so it is brought in only where a proof asks
      for an entry by it. */
  function Entry(t: seq<(real, real)>, i: nat): (real, real)
    requires i < |t|
  {
    t[i]
  }

  /** The table the module builds at start-up: entry i holds the radical
      inverses of i + 1 in bases 2 and 3, so every coordinate lies in [0, 1). */
  ghost predicate IsHaltonTable(t: seq<(real, real)>)
  {
    && |t| == HaltonSamples
    && (forall i {:trigger Entry(t, i)} :: 0 <= i < |t| ==>
          Entry(t, i) == (RadicalInverse(i + 1, 2), RadicalInverse(i + 1, 3)))
    && (forall i :: 0 <= i < |t| ==> 0.0 <= t[i].0 < 1.0 && 0.0 <= t[i].1 < 1.0)
  }

  /** The loop that fills haltonSequence. */
  method BuildHaltonTable() returns (t: seq<(real, real)>)
    ensures IsHaltonTable(t)
  {
    t := [];
    for iter := 0 to HaltonSamples
      invariant |t| == iter
      invariant forall i :: 0 <= i < iter ==> t[i] == (RadicalInverse(i + 1, 2), RadicalInverse(i + 1, 3))
    {
      var x := CreateHaltonSequence(iter + 1, 2);
      var y := CreateHaltonSequence(iter + 1, 3);
      t := t + [(x, y)];
    }
  }

  // ----- The radical inverse as a digit reversal -----

  /** Base-`base` digits of `n`, least significant first. */
  function Digits(n: nat, base: nat): (ds: seq<nat>)
    requires base >= 2
    ensures forall k :: 0 <= k < |ds| ==> ds[k] < base
    ensures n > 0 ==> |ds| > 0 && ds[|ds| - 1] > 0
    decreases n
  {
    if n == 0 then [] else [n % base] + Digits(n / base, base)
  }

  function Pow(base: nat, k: nat): (p: nat)
    ensures base >= 1 ==> p >= 1
  {
    if k == 0 then 1 else base * Pow(base, k - 1)
  }

  /** The number a digit string (least significant first) stands for. */
  function Value(ds: seq<nat>, base: nat): nat
  {
    if ds == [] then 0 else ds[0] + base * Value(ds[1..], base)
  }

  function Reverse(ds: seq<nat>): (rs: seq<nat>)
    ensures |rs| == |ds|
    ensures forall k :: 0 <= k < |ds| ==> rs[k] == ds[|ds| - 1 - k]
  {
    if ds == [] then [] else Reverse(ds[1..]) + [ds[0]]
  }

  /** Digits really is the base-`base` representation of n. */
  lemma {:induction false} DigitsRepresent(n: nat, base: nat)
    requires base >= 2
    ensures Value(Digits(n, base), base) == n
    decreases n
  {
    if n > 0 {
      var q, m := n / base, n % base;
      var rest := Digits(q, base);
      assert Digits(n, base) == [m] + rest;
      assert Value([m] + rest, base) == m + base * Value(rest, base) by {
        assert ([m] + rest)[1..] == rest;
      }
      assert q < n && n == base * q + m by { DivMod(n, base); }
      DigitsRepresent(q, base);
    }
  }

  /** A digit appended at the top counts base^|ds| times. */
  lemma {:induction false} ValueAppend(ds: seq<nat>, d: nat, base: nat)
    ensures Value(ds + [d], base) == Value(ds, base) + d * Pow(base, |ds|)
    decreases |ds|
  {
    if ds == [] {
      assert ([] + [d])[1..] == [];
    } else {
      assert (ds + [d])[1..] == ds[1..] + [d];
      ValueAppend(ds[1..], d, base);
      var v, p := Value(ds[1..], base), Pow(base, |ds| - 1);
      assert base * (v + d * p) == base * v + d * (base * p);
    }
  }

  /** createHaltonSequence returns the base-b digit reversal of its index:
      the digits of `n` read in reverse order, over base^(number of digits). */
  lemma {:induction false} RadicalInverseIsDigitReversal(n: nat, base: nat)
    requires base >= 2
    ensures Num(n, base) == Value(Reverse(Digits(n, base)), base)
    ensures Den(n, base) == Pow(base, |Digits(n, base)|)
    ensures RadicalInverse(n, base) ==
      Value(Reverse(Digits(n, base)), base) as real / Pow(base, |Digits(n, base)|) as real
    decreases n
  {
    if n > 0 {
      DivMod(n, base);
      var q, d := n / base, n % base;
      var rest := Digits(q, base);
      RadicalInverseIsDigitReversal(q, base);
      assert Digits(n, base) == [d] + rest;
      assert Reverse([d] + rest) == Reverse(rest) + [d] by {
        assert ([d] + rest)[1..] == rest;
      }
      ValueAppend(Reverse(rest), d, base);
      NumDenStep(n, base);
    }
  }

  // ----- Distinct indices, distinct offsets -----

  /** (d * q + m) / (b * q) == (d + m / q) / b. */
  lemma SplitFraction(d: nat, m: nat, q: nat, b: nat)
    requires q >= 1 && b >= 1
    ensures (d * q + m) as real / (b * q) as real == (d as real + m as real / q as real) / b as real
  {
    var D, M, Q, B := d as real, m as real, q as real, b as real;
    assert (d * q + m) as real == D * Q + M;
    assert (b * q) as real == B * Q;
    assert (D * Q + M) / (B * Q) == (D + M / Q) / B;
  }

  /** The radical inverse of n is its lowest digit, followed by the radical
      inverse of the remaining digits, shifted one place behind the point. */
  lemma RadicalInverseStep(n: nat, base: nat)
    requires base >= 2 && n > 0
    ensures RadicalInverse(n, base) == ((n % base) as real + RadicalInverse(n / base, base)) / base as real
  {
    DivMod(n, base);
    NumDenStep(n, base);
    SplitFraction(n % base, Num(n / base, base), Den(n / base, base), base);
  }

  lemma CancelDivision(x: real, y: real, b: real)
    requires b > 0.0 && x / b == y / b
    ensures x == y
  {
    assert x == (x / b) * b;
  }

  /** A number splits uniquely into a whole part and a fraction in [0, 1). */
  lemma WholeAndFraction(m: int, n: int, x: real, y: real)
    requires 0.0 <= x < 1.0 && 0.0 <= y < 1.0
    requires m as real + x == n as real + y
    ensures m == n && x == y
  {
  }

  /** Equal radical inverses of positive indices agree in their lowest digit
      and in the radical inverse of the remaining digits. */
  lemma LowestDigitAgrees(i: nat, j: nat, base: nat)
    requires base >= 2 && i > 0 && j > 0
    requires RadicalInverse(i, base) == RadicalInverse(j, base)
    ensures i % base == j % base
    ensures RadicalInverse(i / base, base) == RadicalInverse(j / base, base)
  {
    DivMod(i, base);
    DivMod(j, base);
    var di, dj := i % base, j % base;
    var xi, xj := RadicalInverse(i / base, base), RadicalInverse(j / base, base);
    RadicalInverseStep(i, base);
    RadicalInverseStep(j, base);
    CancelDivision(di as real + xi, dj as real + xj, base as real);
    WholeAndFraction(di, dj, xi, xj);
  }

  /** Different indices have different radical inverses. */
  lemma {:induction false} RadicalInverseInjective(i: nat, j: nat, base: nat)
    requires base >= 2
    requires RadicalInverse(i, base) == RadicalInverse(j, base)
    ensures i == j
    decreases i
  {
    if i > 0 && j > 0 {
      LowestDigitAgrees(i, j, base);
      DivMod(i, base);
      DivMod(j, base);
      RadicalInverseInjective(i / base, j / base, base);
    }
  }

  /** No two entries of the jitter table share their base-2 coordinate, so
      the 36 jitter offsets of one cycle are pairwise different. */
  lemma HaltonTableDistinct(t: seq<(real, real)>)
    requires IsHaltonTable(t)
    ensures forall i, j :: 0 <= i < |t| && 0 <= j < |t| && i != j ==> t[i].0 != t[j].0
  {
    forall i, j | 0 <= i < |t| && 0 <= j < |t| && t[i].0 == t[j].0
      ensures i == j
    {
      assert Entry(t, i).0 == Entry(t, j).0;
      RadicalInverseInjective(i + 1, j + 1, 2);
    }
  }
}
