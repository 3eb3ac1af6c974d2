/**
 * The discount arithmetic that the product card and the product details
 * view both display: the percentage badge and the struck-through price.
 * Prices are whole currency units and the division is done exactly.
 */
module Pricing {
  import opened Common
  import opened Decimal
  import opened ProductSlice

  /**
   * Math.round(n / d): the integer nearest to the exact quotient, halves
   * rounded up (towards +infinity), as Math.round does.
   */
  function RoundHalfUp(n: int, d: int): (r: int)
    requires d != 0
    ensures var (num, den) := if d > 0 then (n, d) else (-n, -d);
      2 * den * r <= 2 * num + den < 2 * den * (r + 1)
  {
    var (num, den) := if d > 0 then (n, d) else (-n, -d);
    var q := (2 * num + den) / (2 * den);
    assert 2 * num + den == (2 * den) * q + (2 * num + den) % (2 * den);
    q
  }

  /** `is_discount && discount_amount` in JavaScript: a non-zero flag and a non-empty amount. */
  predicate HasDiscount(p: Product): (ok: bool)
    ensures p.isDiscount >= 0 ==> (ok <==> StruckPrice(p).Some?)
    ensures p.isDiscount < 0 ==> StruckPrice(p).None? && (ok <==> p.discountAmount.Some? && p.discountAmount.value != "")
  {
    p.isDiscount != 0 && p.discountAmount.Some? && p.discountAmount.value != ""
  }

  /** `product.price || 1`: the price, or 1 when the price is 0. */
  function Divisor(p: Product): (d: int)
    ensures d != 0
    ensures p.price != 0 ==> d == p.price
  {
    if p.price == 0 then 1 else p.price
  }

  /**
   * The percentage badge value: round(parseInt(discount_amount) / (price || 1) * 100)
   * when the product is flagged and has an amount, else 0; NaN when the amount
   * has no leading digits.
   */
  function DiscountPercentage(p: Product): (r: Num)
    ensures !HasDiscount(p) ==> r == Finite(0)
    ensures HasDiscount(p) && ParseInt(p.discountAmount.value).NaN? ==> r.NaN?
    ensures HasDiscount(p) && ParseInt(p.discountAmount.value).Finite? ==>
      var a := ParseInt(p.discountAmount.value).n;
      var d := Divisor(p);
      r.Finite? && (d > 0 ==> 2 * d * r.n <= 200 * a + d < 2 * d * (r.n + 1))
      && (d < 0 ==> -2 * d * r.n <= -200 * a - d < -2 * d * (r.n + 1))
  {
    if HasDiscount(p) then
      match ParseInt(p.discountAmount.value)
      case NaN => NaN
      case Finite(a) => Finite(RoundHalfUp(100 * a, Divisor(p)))
    else Finite(0)
  }

  /** The badge "N% OFF" is rendered only when the percentage is a number above 0. */
  predicate ShowsPercentageBadge(p: Product): (ok: bool)
    ensures ok ==> HasDiscount(p) && ParseInt(p.discountAmount.value).Finite?
  {
    DiscountPercentage(p).IsPositive()
  }

  /**
   * The struck-through "was" price: rendered only when `is_discount > 0` and an
   * amount is present, and then `price + parseInt(discount_amount)`.
   */
  function StruckPrice(p: Product): (r: Option<Num>)
    ensures r.Some? <==> p.isDiscount > 0 && p.discountAmount.Some? && p.discountAmount.value != ""
    ensures r.Some? && ParseInt(p.discountAmount.value).Finite? ==>
      r.value == Finite(p.price + ParseInt(p.discountAmount.value).n)
    ensures r.Some? && ParseInt(p.discountAmount.value).NaN? ==> r.value.NaN?
  {
    if p.isDiscount > 0 && p.discountAmount.Some? && p.discountAmount.value != "" then
      match ParseInt(p.discountAmount.value)
      case NaN => Some(NaN)
      case Finite(a) => Some(Finite(p.price + a))
    else None
  }

  /**
   * For a positive price, the "N% OFF" badge appears exactly when the amount
   * is at least half a percent of the price, so that it rounds to 1 or more.
   */
  lemma PercentageBadgeIff(p: Product)
    requires HasDiscount(p) && p.price > 0 && ParseInt(p.discountAmount.value).Finite?
    ensures ShowsPercentageBadge(p) <==> 200 * ParseInt(p.discountAmount.value).n >= p.price
  {
    RoundsToAtLeastOne(ParseInt(p.discountAmount.value).n, p.price, DiscountPercentage(p).n);
  }

  lemma RoundsToAtLeastOne(a: int, d: int, r: int)
    requires d > 0 && 2 * d * r <= 200 * a + d < 2 * d * (r + 1)
    ensures r >= 1 <==> 200 * a >= d
  {
    assert 2 * d * r == 2 * (d * r);
    assert 2 * d * (r + 1) == 2 * (d * (r + 1));
    if r >= 1 {
      MulMonotone(d, 1, r);
    }
    if 200 * a >= d {
      MulCancelLess(d, 1, r + 1);
    }
  }

  /** A product priced 200 with a discount of "50" shows 25% off and a struck price of 250. */
  lemma DiscountExample(p: Product)
    requires p.price == 200 && p.isDiscount == 1 && p.discountAmount == Some("50")
    ensures DiscountPercentage(p) == Finite(25)
    ensures StruckPrice(p) == Some(Finite(250))
  {
    FiftyParses();
  }

  lemma FiftyParses()
    ensures ParseInt("50") == Finite(50)
  {
    assert LeadingDigits("50") == "50" by {
      LeadingDigitsOfDigits("50");
    }
    assert DigitsValue("50") == 50 by {
      assert "50"[..1] == "5";
    }
  }

  /** A discount between 0 and the (positive) price gives a percentage between 0 and 100. */
  lemma PercentageWithinRange(p: Product)
    requires HasDiscount(p) && p.price > 0
    requires ParseInt(p.discountAmount.value).Finite?
    requires 0 <= ParseInt(p.discountAmount.value).n <= p.price
    ensures DiscountPercentage(p).Finite? && 0 <= DiscountPercentage(p).n <= 100
  {
    RoundedShareBounds(ParseInt(p.discountAmount.value).n, p.price, DiscountPercentage(p).n);
  }

  lemma RoundedShareBounds(a: int, d: int, r: int)
    requires 0 <= a <= d && d > 0
    requires 2 * d * r <= 200 * a + d < 2 * d * (r + 1)
    ensures 0 <= r <= 100
  {
    assert d * (2 * r) < d * 202;
    MulCancelLess(d, 2 * r, 202);
    assert d * 1 < d * (2 * r + 2);
    MulCancelLess(d, 1, 2 * r + 2);
  }

  lemma MulCancelLess(d: int, x: int, y: int)
    requires d > 0 && d * x < d * y
    ensures x < y
  {
    assert d * (y - x) == d * y - d * x;
  }

  lemma MulMonotone(d: int, x: int, y: int)
    requires d > 0 && x <= y
    ensures d * x <= d * y
  {
    assert d * y - d * x == d * (y - x);
  }
}
