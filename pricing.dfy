/**
 * The fixed-point pricing of a booking, in cents: the surge decision, the quoted hourly
 * rate, the add-on lines, the total, the platform commission and the owner's payout.
 * Every `quantize(Decimal("0.01"))` rounds half to even.
 */
module Pricing {
  import opened Wrappers
  import opened Money
  import opened Text
  import opened Entities

  /** Surge multipliers in hundredths: `Decimal("1.00")` and `Decimal("1.10")`. */
  const SurgeNormal: int := 100
  const SurgeHigh: int := 110

  /** `_surge_multiplier_for_pincode`: 1.10 when the pincode has strictly more pipeline bookings than the threshold. */
  function SurgeFor(pipelineCount: nat, threshold: int): int
  {
    if pipelineCount > threshold then SurgeHigh else SurgeNormal
  }

  /** More demand never lowers the surge; a higher threshold never raises it. */
  lemma SurgeMonotone(c1: nat, c2: nat, t1: int, t2: int)
    requires c1 <= c2 && t1 >= t2
    ensures SurgeNormal <= SurgeFor(c1, t1) <= SurgeFor(c2, t2) <= SurgeHigh
  {
  }

  /** The surge applies exactly when demand exceeds the threshold. */
  lemma SurgeIff(count: nat, threshold: int)
    ensures SurgeFor(count, threshold) > SurgeNormal <==> count > threshold
  {
  }

  /** `(price * surge).quantize(0.01)` in cents: the quoted hourly rate. */
  function QuotedRate(price: Dec, surge: int): (rate: int)
    requires surge >= 0
    ensures price.units >= 0 ==> rate >= 0
  {
    assert price.units >= 0 ==> price.units * surge >= 0;
    RoundHalfEvenNonNegative(price.units * surge, Pow10(price.exp));
    RoundHalfEven(price.units * surge, Pow10(price.exp))
  }

  /** The quoted rate is within half a cent of `price * surge`. */
  lemma QuotedRateNearest(price: Dec, surge: int)
    requires surge >= 0
    ensures var rate := QuotedRate(price, surge);
      -(Pow10(price.exp) as int) <= 2 * (price.units * surge - rate * Pow10(price.exp)) <= Pow10(price.exp)
  {
    RoundHalfEvenNearest(price.units * surge, Pow10(price.exp));
  }

  /** A surge never makes the quoted rate smaller. */
  lemma SurgeNeverLowersRate(price: Dec)
    requires price.units >= 0
    ensures QuotedRate(price, SurgeNormal) <= QuotedRate(price, SurgeHigh)
  {
    RoundHalfEvenMonotone(price.units * SurgeNormal, price.units * SurgeHigh, Pow10(price.exp));
  }

  /** Without surge, a price already in whole cents is quoted exactly. */
  lemma NormalRateOfCents(cents: int)
    ensures QuotedRate(Dec(cents, 2), SurgeNormal) == cents
  {
    assert Pow10(2) == 100;
    RoundHalfEvenExact(cents, 100);
  }

  /** Ties round to even: 0.15 x 1.10 = 0.165 is quoted at 0.16, where rounding half up would give 0.17. */
  lemma HalfEvenRate()
    ensures QuotedRate(Dec(15, 2), SurgeHigh) == 16
    ensures QuotedRate(Dec(25, 2), SurgeHigh) == 28
  {
    assert Pow10(2) == 100;
    RoundHalfEvenUnique(15 * 110, 100, 16);
    RoundHalfEvenUnique(25 * 110, 100, 28);
  }

  /** `(price * hours * qty).quantize(0.01)` in cents: one add-on line. */
  function AddonLine(price: Dec, hours: int, qty: int): (cents: int)
    ensures price.units >= 0 && hours >= 0 && qty >= 0 ==> cents >= 0
  {
    var n := price.units * hours * qty * 100;
    assert price.units >= 0 && hours >= 0 ==> price.units * hours >= 0;
    assert price.units >= 0 && hours >= 0 && qty >= 0 ==> n >= 0;
    RoundHalfEvenNonNegative(n, Pow10(price.exp));
    RoundHalfEven(n, Pow10(price.exp))
  }

  /** `(total * (pct / 100)).quantize(0.01)` in cents: the platform commission on `total` cents. */
  function Commission(total: int, pct: Dec): int
  {
    RoundHalfEven(total * pct.units, 100 * Pow10(pct.exp))
  }

  /** The commission is within half a cent of `total * pct / 100`. */
  lemma CommissionNearest(total: int, pct: Dec)
    ensures var fee := Commission(total, pct);
      -100 * Pow10(pct.exp) <= 2 * (total * pct.units - fee * 100 * Pow10(pct.exp)) <= 100 * Pow10(pct.exp)
  {
    var d := 100 * Pow10(pct.exp);
    var fee := Commission(total, pct);
    RoundHalfEvenNearest(total * pct.units, d);
    assert fee * d == fee * 100 * Pow10(pct.exp);
  }

  /** A commission between 0% and 100% of a non-negative total lies between nothing and the whole total. */
  lemma CommissionBounds(total: int, pct: Dec)
    requires total >= 0 && IsPercentage(pct)
    ensures 0 <= Commission(total, pct) <= total
  {
    RoundedFractionBounds(total, pct.units, 100 * Pow10(pct.exp));
  }

  /** At 0% nothing is withheld; at 100% everything is. */
  lemma CommissionExtremes(total: int, e: nat)
    ensures Commission(total, Dec(0, e)) == 0
    ensures Commission(total, Dec(100 * Pow10(e), e)) == total
  {
    RoundHalfEvenExact(0, 100 * Pow10(e));
    assert total * (100 * Pow10(e)) == total * (100 * Pow10(e));
    RoundHalfEvenExact(total, 100 * Pow10(e));
  }

  /** The money figures of one booking, in cents (surge in hundredths). */
  datatype Quote = Quote(surge: int, rate: int, base: int, addonTotal: int, total: int, pct: Dec, commission: int, payout: int)

  /** The pricing block of `create_booking`, once the add-on lines are summed. */
  function MakeQuote(price: Dec, surge: int, hours: int, addonTotal: int, pct: Dec): Quote
    requires surge >= 0
  {
    var rate := QuotedRate(price, surge);
    var base := rate * hours;  // a whole number of cents times a whole number: the quantize is exact
    var total := base + addonTotal;
    var fee := Commission(total, pct);
    Quote(surge, rate, base, addonTotal, total, pct, fee, total - fee)
  }

  /** Commission and payout split the total, which is the base plus the add-ons. */
  lemma QuoteBalanced(price: Dec, surge: int, hours: int, addonTotal: int, pct: Dec)
    requires surge >= 0
    ensures var q := MakeQuote(price, surge, hours, addonTotal, pct);
      q.total == q.base + q.addonTotal && q.commission + q.payout == q.total && q.base == q.rate * hours
  {
  }

  /** With a positive price, positive hours, non-negative add-ons and a percentage in [0, 100], no figure is negative. */
  lemma QuoteNonNegative(price: Dec, surge: int, hours: int, addonTotal: int, pct: Dec)
    requires surge >= 0 && price.units >= 0 && hours > 0 && addonTotal >= 0 && IsPercentage(pct)
    ensures var q := MakeQuote(price, surge, hours, addonTotal, pct);
      q.rate >= 0 && q.base >= 0 && q.total >= 0 && 0 <= q.commission <= q.total && 0 <= q.payout <= q.total
  {
    var rate := QuotedRate(price, surge);
    assert rate * hours >= 0;
    CommissionBounds(rate * hours + addonTotal, pct);
  }

  /** A quote whose total splits into the base and the add-ons, and into commission and payout, with nothing negative. */
  predicate Sound(q: Quote)
  {
    && q.total == q.base + q.addonTotal && q.commission + q.payout == q.total
    && q.rate >= 0 && q.base >= 0 && q.addonTotal >= 0 && 0 <= q.commission <= q.total && q.payout >= 0
  }

  /** Every quote `create_booking` can compute from a non-negative price and add-on total is sound, and keeps the add-on total it was given. */
  lemma MakeQuoteSound(price: Dec, surge: int, hours: int, addonTotal: int, pct: Dec)
    requires surge >= 0 && price.units >= 0 && hours > 0 && addonTotal >= 0 && IsPercentage(pct)
    ensures Sound(MakeQuote(price, surge, hours, addonTotal, pct))
    ensures MakeQuote(price, surge, hours, addonTotal, pct).addonTotal == addonTotal
  {
    QuoteBalanced(price, surge, hours, addonTotal, pct);
    QuoteNonNegative(price, surge, hours, addonTotal, pct);
  }

  // ---------------------------------------------------------------- add-ons

  /** One entry of the `addon_quantities` mapping: the raw key and `int(raw_qty)` (None when that raises). */
  datatype AddonPick = AddonPick(key: string, qty: Option<int>)

  /** One line of `addon_rows`: the add-on listing, the quantity and the line total in cents. */
  datatype AddonRow = AddonRow(addonId: nat, quantity: int, total: int)

  /** The add-on query: a listing of the same owner, not offline and not a tractor. */
  predicate AddonEligible(listings: map<int, Listing>, ownerId: nat, id: nat)
  {
    id in listings && listings[id].ownerId == ownerId
    && listings[id].availabilityStatus != "offline" && listings[id].equipmentType != "Tractor"
  }

  /** The line one pick contributes: None for a non-digit key, an ineligible id or a quantity that is not positive. */
  function PickRow(listings: map<int, Listing>, ownerId: nat, hours: int, pick: AddonPick): Option<AddonRow>
  {
    if !IsDigits(pick.key) then None
    else
      var id := DigitsToNat(pick.key);
      var qty := match pick.qty case None => 0 case Some(q) => q;
      if !AddonEligible(listings, ownerId, id) || qty <= 0 then None
      else Some(AddonRow(id, qty, AddonLine(listings[id].price, hours, qty)))
  }

  /** `addon_rows` after the loop has visited `picks`, in order. */
  function AddonRows(listings: map<int, Listing>, ownerId: nat, hours: int, picks: seq<AddonPick>): seq<AddonRow>
  {
    if picks == [] then []
    else
      var last := picks[|picks| - 1];
      AddonRows(listings, ownerId, hours, picks[..|picks| - 1])
        + (match PickRow(listings, ownerId, hours, last) case None => [] case Some(row) => [row])
  }

  /** The sum of the line totals. */
  function SumTotals(rows: seq<AddonRow>): int
  {
    if rows == [] then 0 else SumTotals(rows[..|rows| - 1]) + rows[|rows| - 1].total
  }

  /** Every add-on line names an eligible listing, a positive quantity and that listing's priced line. */
  lemma {:induction false} AddonRowsSound(listings: map<int, Listing>, ownerId: nat, hours: int, picks: seq<AddonPick>)
    ensures forall r :: r in AddonRows(listings, ownerId, hours, picks) ==>
      AddonEligible(listings, ownerId, r.addonId) && r.quantity > 0
      && r.total == AddonLine(listings[r.addonId].price, hours, r.quantity)
  {
    if picks != [] {
      AddonRowsSound(listings, ownerId, hours, picks[..|picks| - 1]);
    }
  }

  /** No pick is counted twice: there are never more lines than picks. */
  lemma {:induction false} AddonRowsLength(listings: map<int, Listing>, ownerId: nat, hours: int, picks: seq<AddonPick>)
    ensures |AddonRows(listings, ownerId, hours, picks)| <= |picks|
  {
    if picks != [] {
      AddonRowsLength(listings, ownerId, hours, picks[..|picks| - 1]);
    }
  }

  /** Line totals of non-negative prices sum to a non-negative amount. */
  lemma {:induction false} SumTotalsNonNegative(rows: seq<AddonRow>)
    requires forall r :: r in rows ==> r.total >= 0
    ensures SumTotals(rows) >= 0
  {
    if rows != [] {
      assert forall r :: r in rows[..|rows| - 1] ==> r in rows;
      SumTotalsNonNegative(rows[..|rows| - 1]);
    }
  }

  /** With non-negative listing prices and hours, the add-on total is non-negative. */
  lemma AddonTotalNonNegative(listings: map<int, Listing>, ownerId: nat, hours: int, picks: seq<AddonPick>)
    requires hours >= 0
    requires forall id :: id in listings ==> listings[id].price.units >= 0
    ensures SumTotals(AddonRows(listings, ownerId, hours, picks)) >= 0
  {
    AddonRowsSound(listings, ownerId, hours, picks);
    SumTotalsNonNegative(AddonRows(listings, ownerId, hours, picks));
  }
}
