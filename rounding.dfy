/** Exact-sum rounding of an allocation (src/utils/rounding.py).
    Weights are exact reals; Decimal's ROUND_HALF_UP quantisation rounds to
    the nearest multiple of 10^-places, ties away from zero. */
module Rounding {
  import opened Types

  /** 10^n. */
  function Pow10(n: nat): (r: nat)
    ensures r >= 1
  {
    if n == 0 then 1 else 10 * Pow10(n - 1)
  }

  /** The size of one grid step, as a real. */
  function Unit(places: nat): (u: real)
    ensures u > 0.0
  {
    1.0 / (Pow10(places) as real)
  }

  /** x is an integer multiple of 10^-places. */
  predicate OnGrid(x: real, places: nat) {
    var y := x * Pow10(places) as real;
    y.Floor as real == y
  }

  /** The number of grid steps `Decimal(x).quantize(1e-places, ROUND_HALF_UP)`
      lands on: the nearest integer to x * 10^places, a tie going away from zero. */
  function Steps(x: real, places: nat): (k: int)
    ensures var y := x * Pow10(places) as real;
            if y >= 0.0 then k as real - 0.5 <= y < k as real + 0.5
            else k as real - 0.5 < y <= k as real + 0.5
  {
    var y := x * Pow10(places) as real;
    if y >= 0.0 then (y + 0.5).Floor else -((-y + 0.5).Floor)
  }

  /** Half-up quantisation of one weight. */
  function Quantize(x: real, places: nat): (r: real)
    ensures OnGrid(r, places)
    ensures r * Pow10(places) as real == Steps(x, places) as real
  {
    var q := Pow10(places) as real;
    var k := Steps(x, places);
    var r := k as real / q;
    assert r * Pow10(places) as real == k as real;
    assert OnGrid(r, places);
    r
  }

  /** round_allocation: equities and bonds are quantised, cash is the exact
      residual; the input cash is never read. */
  function RoundAllocation(a: Allocation, places: nat): (r: Allocation)
    ensures r.equities == Quantize(a.equities, places)
    ensures r.bonds == Quantize(a.bonds, places)
    ensures r.Total() == 1.0
    ensures OnGrid(r.equities, places) && OnGrid(r.bonds, places)
    ensures r.cash == 1.0 - r.equities - r.bonds
  {
    var eq := Quantize(a.equities, places);
    var bo := Quantize(a.bonds, places);
    Allocation(eq, bo, 1.0 - eq - bo)
  }

  /** The default number of places. */
  const DefaultPlaces: nat := 3

  /** Dividing both sides of a bound by a positive scale. */
  lemma ScaleBound(d: real, q: real, c: real)
    requires q > 0.0 && -c <= d * q <= c
    ensures -(c / q) <= d <= c / q
  {
    assert d == (d * q) / q;
  }

  /** A quantised weight is within half a grid step of its input. */
  lemma QuantizeNear(x: real, places: nat)
    ensures -Unit(places) / 2.0 <= Quantize(x, places) - x <= Unit(places) / 2.0
  {
    var q := Pow10(places) as real;
    var d := Quantize(x, places) - x;
    assert d * q == Quantize(x, places) * q - x * q;
    ScaleBound(d, q, 0.5);
    assert Unit(places) / 2.0 == 0.5 / q;
  }

  /** An exact tie between two non-negative grid points goes to the upper one. */
  lemma QuantizeTieGoesUp(x: real, k: nat, places: nat)
    requires x * Pow10(places) as real == k as real + 0.5
    ensures Steps(x, places) == k + 1
    ensures Quantize(x, places) == (k + 1) as real / Pow10(places) as real
  {
    var y := x * Pow10(places) as real;
    assert y + 0.5 == (k + 1) as real;
  }

  /** A weight already on the grid is returned unchanged. */
  lemma QuantizeOnGridFixed(x: real, places: nat)
    requires OnGrid(x, places)
    ensures Quantize(x, places) == x
  {
    var q := Pow10(places) as real;
    var m := (x * q).Floor;
    assert m as real == x * q;
    assert Steps(x, places) == m;
    assert Quantize(x, places) * q == x * q;
  }

  /** Multiplying by a positive scale keeps order. */
  lemma ScaleMonotone(a: real, b: real, q: real)
    requires q > 0.0 && a <= b
    ensures a * q <= b * q
  {
  }

  /** A positive scale can be cancelled from an inequality. */
  lemma ScaleCancel(a: real, b: real, q: real)
    requires q > 0.0 && a * q <= b * q
    ensures a <= b
  {
  }

  /** Half-up brackets of ordered values are ordered. */
  lemma BracketMonotone(yx: real, yy: real, kx: int, ky: int)
    requires yx <= yy
    requires if yx >= 0.0 then kx as real - 0.5 <= yx < kx as real + 0.5
             else kx as real - 0.5 < yx <= kx as real + 0.5
    requires if yy >= 0.0 then ky as real - 0.5 <= yy < ky as real + 0.5
             else ky as real - 0.5 < yy <= ky as real + 0.5
    ensures kx <= ky
  {
  }

  /** Ordered weights round to ordered step counts. */
  lemma StepsMonotone(x: real, y: real, places: nat)
    requires x <= y
    ensures Steps(x, places) <= Steps(y, places)
  {
    var q := Pow10(places) as real;
    ScaleMonotone(x, y, q);
    BracketMonotone(x * q, y * q, Steps(x, places), Steps(y, places));
  }

  /** Quantisation preserves order. */
  lemma QuantizeMonotone(x: real, y: real, places: nat)
    requires x <= y
    ensures Quantize(x, places) <= Quantize(y, places)
  {
    StepsMonotone(x, y, places);
    ScaleCancel(Quantize(x, places), Quantize(y, places), Pow10(places) as real);
  }

  /** A weight inside an interval whose ends are on the grid stays inside it. */
  lemma QuantizeStaysInGridInterval(x: real, lo: real, hi: real, places: nat)
    requires OnGrid(lo, places) && OnGrid(hi, places)
    requires lo <= x <= hi
    ensures lo <= Quantize(x, places) <= hi
  {
    QuantizeMonotone(lo, x, places);
    QuantizeMonotone(x, hi, places);
    QuantizeOnGridFixed(lo, places);
    QuantizeOnGridFixed(hi, places);
  }

  /** The output never depends on the input cash weight. */
  lemma RoundAllocationIgnoresCash(a: Allocation, cash: real, places: nat)
    ensures RoundAllocation(a.(cash := cash), places) == RoundAllocation(a, places)
  {
  }

  /** For an input that sums to one, the output cash moves by at most one grid step. */
  lemma RoundAllocationCashWithinOneStep(a: Allocation, places: nat)
    requires a.Total() == 1.0
    ensures -Unit(places) <= RoundAllocation(a, places).cash - a.cash <= Unit(places)
  {
    QuantizeNear(a.equities, places);
    QuantizeNear(a.bonds, places);
  }

  /** An allocation whose equities and bonds are on the grid is left as it is,
      apart from cash becoming the residual; so rounding twice equals rounding once. */
  lemma RoundAllocationIdempotent(a: Allocation, places: nat)
    ensures RoundAllocation(RoundAllocation(a, places), places) == RoundAllocation(a, places)
  {
    var r := RoundAllocation(a, places);
    QuantizeOnGridFixed(r.equities, places);
    QuantizeOnGridFixed(r.bonds, places);
  }

  /** On-grid equities and bonds, with cash already the residual, are a fixed point. */
  lemma RoundAllocationFixesGridInput(a: Allocation, places: nat)
    requires OnGrid(a.equities, places) && OnGrid(a.bonds, places)
    requires a.Total() == 1.0
    ensures RoundAllocation(a, places) == a
  {
    QuantizeOnGridFixed(a.equities, places);
    QuantizeOnGridFixed(a.bonds, places);
  }

  /** 0.1235 / 0.4995 / 0.3770 at three places: both ties go up and cash is
      the residual 0.376, not the 0.377 a separate rounding of cash would give. */
  lemma RoundAllocationTieExample()
    ensures RoundAllocation(Allocation(0.1235, 0.4995, 0.3770), 3) == Allocation(0.124, 0.5, 0.376)
  {
    assert Pow10(3) == 1000;
    assert Steps(0.1235, 3) == 124;
    assert Steps(0.4995, 3) == 500;
  }

  /** Cash can come out negative: 0.6495 and 0.3505 both round up. */
  lemma RoundAllocationNegativeCashExample()
    ensures RoundAllocation(Allocation(0.6495, 0.3505, 0.0), 3).cash == -0.001
  {
    assert Pow10(3) == 1000;
    assert Steps(0.6495, 3) == 650;
    assert Steps(0.3505, 3) == 351;
  }
}
