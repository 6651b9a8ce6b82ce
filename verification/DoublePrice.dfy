/**
 The upper price bound `Math.ceil(faceValue * (1 + resaleFeeRate))` as IEEE 754 double arithmetic computes it.  The
 rate is the double nearest to `percent / 100`; the sum and the product are rounded to the nearest double, ties to
 even.  Numbers below are counted in units of 2^-60.
 */
module DoublePrice {

  const TWO_52 := 0x10_0000_0000_0000
  const TWO_53 := 0x20_0000_0000_0000
  const ONE := 0x1000_0000_0000_0000

  /** The integer nearest to `num / den`, ties to even. */
  function RoundEven(num: nat, den: nat): nat
    requires den > 0
  {
    var q, r := num / den, num % den;
    if 2 * r < den || (2 * r == den && q % 2 == 0) then q else q + 1
  }

  /** The spacing of doubles at `x`: the least power of two `u` with `x < u * 2^53`. */
  function Ulp(x: nat): (u: nat)
    ensures u > 0
  {
    if x < TWO_53 then 1 else 2 * Ulp(x / 2)
  }

  /** The double nearest to `num / den`. */
  function Nearest(num: nat, den: nat): nat
    requires den > 0
  {
    var u := Ulp(num / den);
    RoundEven(num, den * u) * u
  }

  function RateOf(percent: nat): nat { Nearest(percent * ONE, 100) }

  function Factor(percent: nat): nat { Nearest(ONE + RateOf(percent), 1) }

  function Unrounded(face: nat, percent: nat): nat { face * Factor(percent) }

  function Product(face: nat, percent: nat): nat { Nearest(Unrounded(face, percent), 1) }

  function CeilDiv(a: nat, b: nat): nat
    requires b > 0
  {
    (a + b - 1) / b
  }

  function PriceCap(face: int, percent: nat): int {
    if face >= 0 then CeilDiv(Product(face, percent), ONE) else -(Product(-face, percent) / ONE)
  }

  /** The bound the formula means: face value plus the percentage, rounded up. */
  function ExactCap(face: nat, percent: nat): nat { CeilDiv(face * (100 + percent), 100) }

  // ------------------------------------------------------------------------------------- rounding

  function Abs(x: int): nat { if x < 0 then -x else x }

  lemma RoundEvenClose(num: nat, den: nat)
    requires den > 0
    ensures 2 * Abs(RoundEven(num, den) * den - num) <= den
  {
    var q, r := num / den, num % den;
    assert num == q * den + r;
    assert (q + 1) * den == q * den + den;
  }

  lemma {:induction false} UlpFits(x: nat)
    requires x >= TWO_52
    ensures Ulp(x) * TWO_52 <= x < Ulp(x) * TWO_53
  {
    if x >= TWO_53 { UlpFits(x / 2); }
  }

  lemma MulMono(a: nat, b: nat, c: nat)
    requires a <= b
    ensures a * c <= b * c
  {
  }

  /** If the spacing is at most a 2^52nd of the quotient, it is at most a 2^52nd of the numerator, rescaled. */
  lemma SpacingIsSmall(num: nat, den: nat, u: nat)
    requires den > 0 && u * TWO_52 <= num / den
    ensures den * u * TWO_52 <= num
  {
    var q := num / den;
    MulMono(u * TWO_52, q, den);
    assert q * den <= num;
    assert u * TWO_52 * den == den * u * TWO_52;
  }

  /** Rounding to the nearest double moves a number by at most one part in 2^53. */
  lemma NearestClose(num: nat, den: nat)
    requires den > 0 && num / den >= TWO_52
    ensures Abs(Nearest(num, den) * den - num) * TWO_53 <= num
  {
    hide Ulp;
    var u := Ulp(num / den);
    UlpFits(num / den);
    SpacingIsSmall(num, den, u);
    MoveIsSmall(num, den, u);
  }

  lemma MoveIsSmall(num: nat, den: nat, u: nat)
    requires den > 0 && u > 0 && den * u * TWO_52 <= num
    ensures den * u > 0 && Abs(RoundEven(num, den * u) * u * den - num) * TWO_53 <= num
  {
    var step := den * u;
    assert step > 0;
    RoundEvenClose(num, step);
    hide RoundEven;
    var n := RoundEven(num, step);
    assert n * u * den == n * step;
  }

  // ----------------------------------------------------------------------------------- the formula

  /** 1 + rate is within a 2^44th of what it stands for. */
  lemma FactorClose(percent: nat)
    requires percent <= 100
    ensures Abs(100 * Factor(percent) - (100 + percent) * ONE) <= 51200
    ensures TWO_52 <= Factor(percent) <= 3 * ONE
  {
    hide Nearest, Ulp, RoundEven;
    var rate := RateOf(percent);
    if percent == 0 {
      ZeroIsExact();
    } else {
      NearestClose(percent * ONE, 100);
    }
    NearestClose(ONE + rate, 1);
  }

  lemma ZeroIsExact()
    ensures Nearest(0, 100) == 0 && Nearest(0, 1) == 0
  {
  }

  /** The computed product is off by less than a hundredth of a won for any face value up to ten trillion won. */
  lemma ProductClose(face: nat, percent: nat)
    requires percent <= 100 && 1 <= face <= 10_000_000_000_000
    ensures Abs(100 * Product(face, percent) - face * (100 + percent) * ONE) < ONE
  {
    hide Nearest, Factor;
    FactorClose(percent);
    RoundedClose(face, Factor(percent), 100 + percent);
  }

  lemma RoundedClose(face: nat, factor: nat, hundredths: nat)
    requires 1 <= face <= 10_000_000_000_000 && Abs(100 * factor - hundredths * ONE) <= 51200 && TWO_52 <= factor <= 3 * ONE
    ensures Abs(100 * Nearest(face * factor, 1) - face * hundredths * ONE) < ONE
  {
    hide Nearest;
    MulMono(1, face, factor);
    NearestClose(face * factor, 1);
    ErrorsAdd(face, factor, hundredths);
  }

  lemma ErrorsAdd(face: nat, factor: nat, hundredths: nat)
    requires Abs(100 * factor - hundredths * ONE) <= 51200 && factor <= 3 * ONE
    ensures Abs(100 * (face * factor) - face * hundredths * ONE) <= face * 51200
    ensures face * factor <= face * (3 * ONE)
  {
    var off := 100 * factor - hundredths * ONE;
    Bounded(face, off, 51200);
    calc {
      100 * (face * factor);
      face * (100 * factor);
      face * (hundredths * ONE + off);
      face * (hundredths * ONE) + face * off;
      face * hundredths * ONE + face * off;
    }
    MulMono(factor, 3 * ONE, face);
  }

  lemma Bounded(face: nat, off: int, most: nat)
    requires Abs(off) <= most
    ensures Abs(face * off) <= face * most
  {
    if off >= 0 {
      MulMono(off, most, face);
    } else {
      MulMono(-off, most, face);
      assert face * off == -(face * -off);
    }
  }

  function TwoTo(k: nat): nat { if k == 0 then 1 else 2 * TwoTo(k - 1) }

  // The exact bound in won is a double, and not on the edge of a tie: twice the spacing divides it.

  lemma {:induction false} SpacingDivides(x: nat, k: nat) returns (m: nat)
    requires x < TwoTo(k) * TWO_53
    ensures TwoTo(k) == m * Ulp(x)
  {
    if x < TWO_53 {
      m := TwoTo(k);
    } else {
      m := SpacingDivides(x / 2, k - 1);
      DoubleOf(m, Ulp(x / 2));
    }
  }

  lemma DoubleOf(m: nat, d: nat)
    ensures 2 * (m * d) == m * (2 * d)
  {
  }

  lemma WonIsOnTheGrid(won: nat, x: nat) returns (m: nat)
    requires x < TwoTo(59) * TWO_53
    ensures m % 2 == 0 && won * ONE == m * Ulp(x)
  {
    var n := SpacingDivides(x, 59);
    TwoTo59();
    hide Ulp, TwoTo;
    var u := Ulp(x);
    m := 2 * (won * n);
    Regroup(won, n, u);
  }

  lemma Regroup(won: nat, n: nat, u: nat)
    ensures won * (2 * (n * u)) == 2 * (won * n) * u
  {
    assert won * (n * u) == won * n * u;
    assert won * (2 * (n * u)) == 2 * (won * (n * u));
  }

  lemma {:induction false} TwoToSum(j: nat, k: nat)
    ensures TwoTo(j + k) == TwoTo(j) * TwoTo(k)
  {
    if k > 0 { TwoToSum(j, k - 1); }
  }

  lemma TwoTo59()
    ensures TwoTo(59) == 0x800_0000_0000_0000
  {
    assert TwoTo(15) == 0x8000 && TwoTo(14) == 0x4000;
    hide TwoTo;
    TwoToSum(15, 15);
    TwoToSum(30, 15);
    TwoToSum(45, 14);
  }

  lemma RoundsAbove(num: nat, u: nat, m: nat)
    requires u > 0 && m % 2 == 0
    ensures RoundEven(num, u) * u > m * u <==> 2 * (num - m * u) > u
  {
    var q, r := num / u, num % u;
    assert num == q * u + r;
    var n := RoundEven(num, u);
    assert n == if 2 * r < u || (2 * r == u && q % 2 == 0) then q else q + 1;
    OneMore(q, u);
    OneMore(m, u);
    if q > m {
      MulMono(m + 1, q, u);
      MulMono(q, n, u);
    } else if q < m {
      MulMono(q + 1, m, u);
      MulMono(n, m, u);
    }
  }

  lemma OneMore(n: nat, u: nat)
    ensures (n + 1) * u == n * u + u
  {
  }

  /** face * (1 + rate) lies above the whole number of won it stands for by more than half the spacing of doubles. */
  predicate Overshoots(face: nat, percent: nat) {
    var product := Unrounded(face, percent);
    2 * (product - face * (100 + percent) / 100 * ONE) > Ulp(product)
  }

  /**
   The computed bound is the exact one, or one won more: that happens exactly when the percentage comes out whole and
   the factor's rounding error shows in the product.
   */
  lemma CapIsExactOrOneMore(face: nat, percent: nat)
    requires percent <= 100 && face <= 10_000_000_000_000
    ensures PriceCap(face, percent) == ExactCap(face, percent)
            || PriceCap(face, percent) == ExactCap(face, percent) + 1
    ensures PriceCap(face, percent) == ExactCap(face, percent) + 1
            <==> face * (100 + percent) % 100 == 0 && Overshoots(face, percent)
  {
    var won := face * (100 + percent) / 100;
    ProductAbove(face, percent, won);
    hide Product;
    if face == 0 {
      ZeroProduct(percent);
    } else {
      ProductClose(face, percent);
      CeilOfClose(face * (100 + percent), Product(face, percent));
    }
  }

  lemma ProductAbove(face: nat, percent: nat, won: nat)
    requires percent <= 100 && face <= 10_000_000_000_000
    ensures Product(face, percent) > won * ONE
            <==> 2 * (Unrounded(face, percent) - won * ONE) > Ulp(Unrounded(face, percent))
  {
    hide Factor;
    assert Factor(percent) <= 3 * ONE by { FactorClose(percent); }
    var num := Unrounded(face, percent);
    MulMono(Factor(percent), 3 * ONE, face);
    MulMono(face, 10_000_000_000_000, 3 * ONE);
    assert num < TwoTo(59) * TWO_53 by { TwoTo59(); }
    var m := WonIsOnTheGrid(won, num);
    RoundsAbove(num, Ulp(num), m);
    hide Ulp, RoundEven, TwoTo;
  }

  lemma ZeroProduct(percent: nat)
    ensures Product(0, percent) == 0
  {
    hide Factor;
    ZeroIsExact();
  }

  lemma CeilOfClose(hundredths: nat, product: nat)
    requires Abs(100 * product - hundredths * ONE) < ONE
    ensures var cap, exact := CeilDiv(product, ONE), CeilDiv(hundredths, 100);
            && (cap == exact || cap == exact + 1)
            && (cap == exact + 1 <==> hundredths % 100 == 0 && product > hundredths / 100 * ONE)
  {
  }

  lemma {:induction false} SpacingIs(x: nat, k: nat)
    requires TwoTo(k) * TWO_52 <= x < TwoTo(k) * TWO_53
    ensures Ulp(x) == TwoTo(k)
  {
    if k > 0 { SpacingIs(x / 2, k - 1); }
  }

  /** The nearest double, from the binade its argument lies in. */
  lemma NearestIs(num: nat, den: nat, k: nat, spacing: nat, value: nat)
    requires den > 0 && spacing == TwoTo(k) > 0
    requires spacing * TWO_52 <= num / den < spacing * TWO_53
    requires RoundEven(num, den * spacing) * spacing == value
    ensures Nearest(num, den) == value
  {
    hide RoundEven;
    SpacingIs(num / den, k);
  }

  lemma TwoTo25()
    ensures TwoTo(24) == 16777216 && TwoTo(25) == 33554432
  {
    assert TwoTo(12) == 4096 && TwoTo(1) == 2;
    hide TwoTo;
    TwoToSum(12, 12);
    TwoToSum(24, 1);
  }

  lemma SevenPercent()
    ensures Factor(7) == 1233626009929326336
  {
    assert TwoTo(4) == 16 && TwoTo(8) == 256;
    hide TwoTo;
    NearestIs(7 * ONE, 100, 4, 16, 80704505322479296);
    NearestIs(ONE + 80704505322479296, 1, 8, 256, 1233626009929326336);
    hide Nearest;
  }

  lemma EightPercent()
    ensures Factor(8) == 1245155224975394816
  {
    assert TwoTo(4) == 16 && TwoTo(8) == 256;
    hide TwoTo;
    NearestIs(8 * ONE, 100, 4, 16, 92233720368547760);
    NearestIs(ONE + 92233720368547760, 1, 8, 256, 1245155224975394816);
    hide Nearest;
  }

  /** The shop's own zone at 121000 won and 7 percent gets a bound a won above seven percent. */
  lemma StockPriceOfR()
    ensures PriceCap(121_000, 7) == 129_471 && ExactCap(121_000, 7) == 129_470
  {
    SevenPercent();
    hide Factor;
    TwoTo25();
    hide TwoTo;
    NearestIs(121_000 * 1233626009929326336, 1, 24, 16777216, 149268747201448494759936);
    hide Nearest;
  }

  /** The shop's own zone at 154000 won and 8 percent gets the exact bound. */
  lemma StockPriceOfVip()
    ensures PriceCap(154_000, 8) == ExactCap(154_000, 8) == 166_320
  {
    EightPercent();
    hide Factor;
    TwoTo25();
    hide TwoTo;
    NearestIs(154_000 * 1245155224975394816, 1, 25, 33554432, 191753904646210789048320);
    hide Nearest;
  }

  // ----------------------------------------------------------------------------------- the resale fee

  /** `Math.ceil(price * 0.05)` */
  function FeeCap(price: nat): nat { CeilDiv(Nearest(price * Nearest(5 * ONE, 100), 1), ONE) }

  const FIVE_PERCENT := 57646075230342352

  lemma FivePercent()
    ensures Nearest(5 * ONE, 100) == FIVE_PERCENT
  {
    assert TwoTo(3) == 8;
    NearestIs(5 * ONE, 100, 3, 8, FIVE_PERCENT);
  }

  /** Five percent is always exact: the error of the double 0.05 is too small to survive the rounding of the product. */
  lemma FeeIsExact(price: nat)
    requires price <= 10_000_000_000_000
    ensures FeeCap(price) == CeilDiv(5 * price, 100)
  {
    hide Nearest;
    FivePercent();
    if price == 0 {
      ZeroIsExact();
    } else {
      RoundedClose(price, FIVE_PERCENT, 5);
      CeilOfClose(5 * price, Nearest(price * FIVE_PERCENT, 1));
      if 5 * price % 100 == 0 { WholeFeeIsExact(5 * price / 100); }
    }
  }

  lemma WholeFeeIsExact(won: nat)
    requires won <= 10_000_000_000_000
    ensures Nearest(20 * won * FIVE_PERCENT, 1) <= won * ONE
  {
    hide TwoTo;
    var num := 20 * won * FIVE_PERCENT;
    assert num == won * ONE + 64 * won;
    if num < TWO_53 {
      assert won == 0;
    } else {
      UlpFits(num);
    }
    assert num < TwoTo(59) * TWO_53 by { TwoTo59(); }
    var m := WonIsOnTheGrid(won, num);
    RoundsAbove(num, Ulp(num), m);
  }
}
