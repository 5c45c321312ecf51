/** The biometric threshold of rdp/push/policy.py, with Python's `Decimal` arithmetic written out. */
module PushPolicy {
  import opened Common

  datatype ThresholdType = Count | Rate

  /** `threshold_value` has two decimal places, so it is kept as a number of hundredths. */
  datatype Threshold = Threshold(kind: ThresholdType, hundredths: int)

  // The default decimal context keeps 28 significant digits and rounds half to even.
  const PRECISION: nat := 28
  // max_digits=12 of the form field that fills threshold_value.
  const MAX_HUNDREDTHS: int := 1_000_000_000_000

  function Pow10(e: nat): (p: nat)
    ensures p > 0
  {
    if e == 0 then 1 else 10 * Pow10(e - 1)
  }

  function RoundHalfEven(n: nat, unit: nat): nat
    requires unit > 0
  {
    var q, r := n / unit, n % unit;
    if 2 * r > unit || (2 * r == unit && q % 2 == 1) then q + 1 else q
  }

  /** Number of low digits dropped so that at most PRECISION digits remain. */
  function Dropped(n: nat, d: nat): nat
    decreases n - d
  {
    if n < Pow10(PRECISION + d) || d >= n then d else Dropped(n, d + 1)
  }

  /** The coefficient a `Decimal` product keeps. */
  function RoundToContext(n: nat): nat {
    var unit := Pow10(Dropped(n, 0));
    RoundHalfEven(n, unit) * unit
  }

  /** `threshold_exceeded`: None stands for the ValueError of invalid inputs. */
  function ThresholdExceeded(findings: int, total: int, threshold: Threshold): Option<bool> {
    if findings < 0 || total <= 0 || threshold.hundredths < 0 then None
    else match threshold.kind
      case Count => Some(findings * 100 > threshold.hundredths)
      case Rate => Some(RoundToContext(findings * 100) * 100 > RoundToContext(threshold.hundredths * total))
  }

  lemma ShortProductsAreExact(n: nat)
    requires n < Pow10(PRECISION)
    ensures RoundToContext(n) == n
  {
    assert Dropped(n, 0) == 0;
    assert RoundHalfEven(n, 1) == n;
  }

  lemma ContextBound()
    ensures Pow10(PRECISION) == 10_000_000_000_000_000_000_000_000_000
  {
    assert Pow10(4) == 10_000;
    assert Pow10(8) == 100_000_000;
    assert Pow10(12) == 1_000_000_000_000;
    assert Pow10(16) == 10_000_000_000_000_000;
    assert Pow10(20) == 100_000_000_000_000_000_000;
    assert Pow10(24) == 1_000_000_000_000_000_000_000_000;
  }

  /**
   * As long as the two products fit the decimal context, the comparison made with rounded
   * `Decimal`s decides the exact rational inequality.
   */
  lemma {:induction false} ThresholdIsExact(findings: nat, total: nat, threshold: Threshold)
    requires total > 0 && threshold.hundredths >= 0
    requires findings * 100 < Pow10(PRECISION) && threshold.hundredths * total < Pow10(PRECISION)
    ensures ThresholdExceeded(findings, total, threshold) == Some(
      match threshold.kind
      case Count => findings as real > threshold.hundredths as real / 100.0
      case Rate => findings as real / total as real > threshold.hundredths as real / 100.0 / 100.0)
  {
    ShortProductsAreExact(findings * 100);
    ShortProductsAreExact(threshold.hundredths * total);
    if threshold.kind == Rate {
      CrossMultiply(findings, total, threshold.hundredths);
    }
  }

  /** The products fit for every threshold the form accepts and fewer than 10^16 findings and individuals. */
  lemma FormThresholdsFit(findings: nat, total: nat, threshold: Threshold)
    requires total < 10_000_000_000_000_000 && findings < 10_000_000_000_000_000
    requires 0 <= threshold.hundredths < MAX_HUNDREDTHS
    ensures findings * 100 < Pow10(PRECISION) && threshold.hundredths * total < Pow10(PRECISION)
  {
    ContextBound();
    assert threshold.hundredths * total <= threshold.hundredths * 10_000_000_000_000_000;
  }

  lemma CrossMultiply(findings: nat, total: nat, hundredths: nat)
    requires total > 0
    ensures findings * 10_000 > hundredths * total
      <==> findings as real / total as real > hundredths as real / 100.0 / 100.0
  {
    var f, t, h := findings as real, total as real, hundredths as real;
    assert (hundredths * total) as real == h * t;
    var q := f / t;
    assert q * t == f;
    var p := h / 10_000.0;
    assert h / 100.0 / 100.0 == p;
    assert h == p * 10_000.0;
    assert h * t == p * t * 10_000.0;
    if q > p {
      assert (q - p) * t > 0.0;
      assert q * t > p * t;
    } else {
      assert (p - q) * t >= 0.0;
      assert q * t <= p * t;
    }
  }

  lemma PowersFrom28()
    ensures Pow10(28) == 10_000_000_000_000_000_000_000_000_000
    ensures Pow10(29) == 10 * Pow10(28) && Pow10(30) == 100 * Pow10(28) && Pow10(31) == 1000 * Pow10(28)
    ensures Pow10(32) == 10_000 * Pow10(28) && Pow10(33) == 100_000 * Pow10(28)
    ensures Pow10(3) == 1000 && Pow10(5) == 100_000
  {
    ContextBound();
  }

  // ----- any number of digits -----

  lemma PowersGrow(e: nat)
    ensures Pow10(e) > e && Pow10(e + 1) == 10 * Pow10(e) && Pow10(e + 2) == 100 * Pow10(e)
  {
    if e > 0 {
      PowersGrow(e - 1);
    }
    assert Pow10(e + 2) == 10 * Pow10(e + 1);
  }

  lemma {:induction false} PowersMonotone(d: nat, e: nat)
    requires d <= e
    ensures Pow10(d) <= Pow10(e)
  {
    if d < e {
      PowersMonotone(d, e - 1);
    }
  }

  /** d low digits of n have to go. */
  predicate HasToDrop(n: nat, d: nat) {
    n < Pow10(PRECISION + d) && (d > 0 ==> n >= Pow10(PRECISION + d - 1))
  }

  lemma {:induction false} DroppedFrom(n: nat, d: nat)
    requires d == 0 || n >= Pow10(PRECISION + d - 1)
    ensures HasToDrop(n, Dropped(n, d))
    decreases n - d
  {
    if n < Pow10(PRECISION + d) {
    } else if d >= n {
      PowersGrow(PRECISION + d);
    } else {
      DroppedFrom(n, d + 1);
    }
  }

  lemma DroppedIs(n: nat, d: nat)
    requires HasToDrop(n, d)
    ensures Dropped(n, 0) == d
  {
    DroppedFrom(n, 0);
    var c := Dropped(n, 0);
    if c < d {
      PowersMonotone(PRECISION + c, PRECISION + d - 1);
    } else if d < c {
      PowersMonotone(PRECISION + d, PRECISION + c - 1);
    }
  }

  lemma DivMod(n: nat, unit: nat)
    requires unit > 0
    ensures n == n / unit * unit + n % unit && n % unit < unit
  {
  }

  /** Different multiples are at least one unit apart. */
  lemma MultiplesApart(a: nat, b: nat, unit: nat)
    requires a < b
    ensures a * unit + unit <= b * unit
  {
    var more: nat := b - a - 1;
    assert b * unit == (a + 1 + more) * unit == a * unit + unit + more * unit;
  }

  lemma QuotientIs(n: nat, unit: nat, q: nat, r: nat)
    requires unit > 0 && n == q * unit + r && r < unit
    ensures n / unit == q && n % unit == r
  {
    DivMod(n, unit);
    var k: nat := n / unit;
    if k < q {
      MultiplesApart(k, q, unit);
    } else if q < k {
      MultiplesApart(q, k, unit);
    }
  }

  lemma QuotientsMonotone(n: nat, m: nat, unit: nat)
    requires unit > 0 && n <= m
    ensures n / unit <= m / unit
  {
    DivMod(n, unit);
    DivMod(m, unit);
    var k: nat, q: nat := n / unit, m / unit;
    if q < k {
      MultiplesApart(q, k, unit);
    }
  }

  lemma RoundingMonotone(n: nat, m: nat, unit: nat)
    requires unit > 0 && n <= m
    ensures RoundHalfEven(n, unit) <= RoundHalfEven(m, unit)
  {
    QuotientsMonotone(n, m, unit);
    DivMod(n, unit);
    DivMod(m, unit);
  }

  lemma MultiplesStay(k: nat, unit: nat)
    requires unit > 0
    ensures RoundHalfEven(k * unit, unit) == k
  {
    QuotientIs(k * unit, unit, k, 0);
  }

  lemma TimesMonotone(a: nat, b: nat, unit: nat)
    requires a <= b
    ensures a * unit <= b * unit
  {
  }

  lemma PowersAdd(d: nat, e: nat)
    ensures Pow10(d + e) == Pow10(d) * Pow10(e)
  {
    if d > 0 {
      PowersAdd(d - 1, e);
      assert Pow10(d + e) == 10 * Pow10(d - 1 + e);
    }
  }

  lemma RoundedBelow(n: nat, k: nat, unit: nat)
    requires unit > 0 && n <= k * unit
    ensures RoundHalfEven(n, unit) * unit <= k * unit
  {
    RoundingMonotone(n, k * unit, unit);
    MultiplesStay(k, unit);
    TimesMonotone(RoundHalfEven(n, unit), k, unit);
  }

  lemma RoundedAbove(n: nat, k: nat, unit: nat)
    requires unit > 0 && k * unit <= n
    ensures k * unit <= RoundHalfEven(n, unit) * unit
  {
    RoundingMonotone(k * unit, n, unit);
    MultiplesStay(k, unit);
    TimesMonotone(k, RoundHalfEven(n, unit), unit);
  }

  lemma RoundedLength(n: nat, d: nat)
    requires HasToDrop(n, d)
    ensures RoundHalfEven(n, Pow10(d)) * Pow10(d) <= Pow10(PRECISION + d)
    ensures d > 0 ==> Pow10(PRECISION + d - 1) <= RoundHalfEven(n, Pow10(d)) * Pow10(d)
  {
    hide Pow10, RoundHalfEven;
    PowersAdd(PRECISION, d);
    RoundedBelow(n, Pow10(PRECISION), Pow10(d));
    if d > 0 {
      PowersAdd(PRECISION - 1, d);
      RoundedAbove(n, Pow10(PRECISION - 1), Pow10(d));
    }
  }

  /** Numbers of different length keep their order: a power of ten lies between them and stays. */
  lemma LengthsKeepOrder(n: nat, m: nat, d: nat, e: nat)
    requires HasToDrop(n, d) && HasToDrop(m, e) && d < e
    ensures RoundHalfEven(n, Pow10(d)) * Pow10(d) <= RoundHalfEven(m, Pow10(e)) * Pow10(e)
  {
    hide Pow10, RoundHalfEven;
    RoundedLength(n, d);
    RoundedLength(m, e);
    PowersMonotone(PRECISION + d, PRECISION + e - 1);
  }

  lemma {:induction false} ContextMonotone(n: nat, m: nat)
    requires n <= m
    ensures RoundToContext(n) <= RoundToContext(m)
  {
    DroppedFrom(n, 0);
    DroppedFrom(m, 0);
    var d, e := Dropped(n, 0), Dropped(m, 0);
    if d < e {
      LengthsKeepOrder(n, m, d, e);
    } else {
      if e < d {
        PowersMonotone(PRECISION + e, PRECISION + d - 1);
      }
      RoundingMonotone(n, m, Pow10(d));
      TimesMonotone(RoundHalfEven(n, Pow10(d)), RoundHalfEven(m, Pow10(d)), Pow10(d));
    }
  }

  lemma HundredfoldRounding(n: nat, unit: nat)
    requires unit > 0
    ensures RoundHalfEven(n * 100, unit * 100) == RoundHalfEven(n, unit)
  {
    DivMod(n, unit);
    assert n / unit * (unit * 100) == n / unit * unit * 100;
    QuotientIs(n * 100, unit * 100, n / unit, n % unit * 100);
  }

  lemma {:induction false} ShortTimes100(n: nat)
    requires n < Pow10(PRECISION)
    ensures RoundToContext(n * 100) == n * 100
  {
    PowersGrow(PRECISION);
    assert Pow10(0) == 1 && Pow10(1) == 10 && Pow10(2) == 100;
    if n * 100 < Pow10(PRECISION) {
      ShortProductsAreExact(n * 100);
    } else if n * 100 < Pow10(PRECISION + 1) {
      DroppedIs(n * 100, 1);
      MultiplesStay(n * 10, 10);
    } else {
      DroppedIs(n * 100, 2);
      MultiplesStay(n, 100);
    }
  }

  lemma LongTimes100(n: nat, d: nat)
    requires d > 0 && HasToDrop(n, d)
    ensures RoundToContext(n * 100) == RoundToContext(n) * 100
  {
    hide RoundHalfEven;
    PowersGrow(PRECISION + d);
    PowersGrow(PRECISION + d - 1);
    DroppedIs(n, d);
    DroppedIs(n * 100, d + 2);
    PowersGrow(d);
    HundredfoldRounding(n, Pow10(d));
    Regrouped(RoundHalfEven(n, Pow10(d)), Pow10(d));
  }

  lemma Regrouped(a: nat, unit: nat)
    ensures a * (unit * 100) == a * unit * 100
  {
  }

  /** Two zeros at the end do not change what is rounded away. */
  lemma {:induction false} ContextTimes100(n: nat)
    ensures RoundToContext(n * 100) == RoundToContext(n) * 100
  {
    DroppedFrom(n, 0);
    var d := Dropped(n, 0);
    if d > 0 {
      LongTimes100(n, d);
    } else {
      ShortProductsAreExact(n);
      ShortTimes100(n);
    }
  }

  /** The nearest number of 28 digits, and of two nearest ones the even one. */
  predicate IsNearest(n: nat, unit: nat, q: nat) {
    Halfway(n, unit, q, q * unit)
  }

  predicate Halfway(n: nat, unit: nat, q: nat, rounded: nat) {
    && 2 * rounded <= 2 * n + unit && 2 * n <= 2 * rounded + unit
    && (2 * rounded == 2 * n + unit || 2 * n == 2 * rounded + unit ==> q % 2 == 0)
  }

  lemma ContextIsNearest(n: nat) returns (d: nat, q: nat)
    ensures HasToDrop(n, d) && RoundToContext(n) == q * Pow10(d) && (d > 0 ==> IsNearest(n, Pow10(d), q))
    ensures d == 0 ==> RoundToContext(n) == n
  {
    DroppedFrom(n, 0);
    d := Dropped(n, 0);
    q := RoundHalfEven(n, Pow10(d));
    if d > 0 {
      HalfEvenIsNearest(n, Pow10(d));
    } else {
      ShortProductsAreExact(n);
    }
  }

  lemma HalfEvenIsNearest(n: nat, unit: nat)
    requires unit > 0
    ensures IsNearest(n, unit, RoundHalfEven(n, unit))
  {
    hide IsNearest;
    DivMod(n, unit);
    NearestOfQuotient(n, unit, n / unit, n % unit);
  }

  lemma NearestOfQuotient(n: nat, unit: nat, q: nat, r: nat)
    requires n == q * unit + r && r < unit
    ensures IsNearest(n, unit, if 2 * r > unit || (2 * r == unit && q % 2 == 1) then q + 1 else q)
  {
    RoundsToHalfway(n, unit, q, q * unit, r);
    hide Halfway;
    if 2 * r > unit || (2 * r == unit && q % 2 == 1) {
      NextMultiple(q, unit);
    }
  }

  lemma RoundsToHalfway(n: nat, unit: nat, q: nat, below: nat, r: nat)
    requires n == below + r && r < unit
    ensures 2 * r > unit || (2 * r == unit && q % 2 == 1) ==> Halfway(n, unit, q + 1, below + unit)
    ensures !(2 * r > unit || (2 * r == unit && q % 2 == 1)) ==> Halfway(n, unit, q, below)
  {
  }

  lemma NextMultiple(q: nat, unit: nat)
    ensures (q + 1) * unit == q * unit + unit
  {
  }

  /** The two products that a rate compares round to the same `Decimal`. */
  predicate RoundsAway(findings: nat, total: nat, threshold: Threshold)
    requires threshold.hundredths >= 0
  {
    threshold.kind == Rate && RoundToContext(findings * 100) * 100 == RoundToContext(threshold.hundredths * total)
  }

  /**
   * For all numbers: a threshold counts as exceeded if and only if it is exceeded and the two
   * products of a rate do not round to the same number. Rounding never makes up an excess.
   */
  lemma {:induction false} ThresholdDecides(findings: nat, total: nat, threshold: Threshold)
    requires total > 0 && threshold.hundredths >= 0
    ensures
      var exceeded := match threshold.kind
        case Count => findings as real > threshold.hundredths as real / 100.0
        case Rate => findings as real / total as real > threshold.hundredths as real / 100.0 / 100.0;
      ThresholdExceeded(findings, total, threshold) == Some(exceeded && !RoundsAway(findings, total, threshold))
  {
    if threshold.kind == Rate {
      CrossMultiply(findings, total, threshold.hundredths);
      ContextTimes100(findings * 100);
      if findings * 10_000 > threshold.hundredths * total {
        ContextMonotone(threshold.hundredths * total, findings * 10_000);
      } else {
        ContextMonotone(findings * 10_000, threshold.hundredths * total);
      }
    }
  }

  /** The limit is real: beyond 28 digits the rounded comparison can miss an excess of one part in 10^28. */
  lemma RoundingCanDecide()
    ensures var findings, total := 10_000_000_000_000_000_000_000_000_001, 5_040_068_544_932_211_078_070_661_761;
      && findings * 10_000 > 19_841 * total
      && ThresholdExceeded(findings, total, Threshold(Rate, 19_841)) == Some(false)
  {
    PowersFrom28();
    var n, m := 1_000_000_000_000_000_000_000_000_000_100, 100_000_000_000_000_000_000_000_000_000_001;
    assert Dropped(n, 3) == 3 && Dropped(n, 2) == 3 && Dropped(n, 1) == 3 && Dropped(n, 0) == 3;
    assert Dropped(m, 5) == 5 && Dropped(m, 4) == 5 && Dropped(m, 3) == 5 && Dropped(m, 2) == 5 && Dropped(m, 1) == 5 && Dropped(m, 0) == 5;
    assert RoundHalfEven(n, 1000) == 1_000_000_000_000_000_000_000_000_000;
    assert RoundHalfEven(m, 100_000) == 1_000_000_000_000_000_000_000_000_000;
  }
}
